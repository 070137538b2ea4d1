/**
 * The connection manager as a state machine. JavaScript runs one synchronous segment at a time,
 * so every function below is what the service does between two awaits, and any number of calls
 * interleave at the awaits. A client is live from its creation until `disconnect()` is called.
 */
module Connections {
  import opened Wrappers

  datatype EndpointName = Primary | Secondary

  type ClientId = nat

  datatype ActiveEndpoint = ActiveEndpoint(name: EndpointName, client: ClientId)

  /** Where the tracked work, the promise in `switching`, is suspended. */
  datatype Phase =
    | ClosingOld(alternate: EndpointName, closing: ClientId)
    | Bootstrapping(name: EndpointName, client: ClientId, rest: seq<EndpointName>)
    | ClosingFailed(rest: seq<EndpointName>, closing: ClientId)

  /** What an awaiting caller holds: an endpoint, or the outcome of the work with this number. */
  datatype Pledge = Ready(endpoint: ActiveEndpoint) | Tracked(work: nat)

  /** A tracked work that has settled: the endpoints it was to try, those it tried, and its outcome. */
  datatype Finished = Finished(order: seq<EndpointName>, tried: seq<EndpointName>, outcome: Option<ActiveEndpoint>)

  /** The fields of the service, then the history of what it did with clients, works and timers. */
  datatype Manager = Manager(
    active: Option<ActiveEndpoint>,
    preferred: EndpointName,
    switching: Option<Phase>,
    reconnectAttempt: nat,
    reconnectTimer: bool,
    destroyed: bool,
    created: nat,                           // clients are numbered in order of creation
    live: set<ClientId>,
    order: seq<EndpointName>,               // what the latest tracked work is to try
    tried: seq<EndpointName>,               // what it has tried
    settled: seq<Finished>,                 // the tracked works that have settled
    armed: seq<nat>,                        // delays armed since the last successful connect
    abandoned: seq<ClientId>)               // clients a failover was started for

  const INITIAL := Manager(None, Primary, None, 0, false, false, 0, {}, [], [], [], [], [])

  const RECONNECT_BACKOFF_MS: seq<nat> := [1000, 2000, 5000, 10000, 30000]

  function ReconnectDelayMs(attempt: nat): nat {
    if attempt < |RECONNECT_BACKOFF_MS| then RECONNECT_BACKOFF_MS[attempt]
    else RECONNECT_BACKOFF_MS[|RECONNECT_BACKOFF_MS| - 1]
  }

  lemma DelaysGrowToTheCap(i: nat, j: nat)
    requires i <= j
    ensures 1000 <= ReconnectDelayMs(i) <= ReconnectDelayMs(j) <= 30000
    ensures i >= 4 ==> ReconnectDelayMs(i) == 30000
  {
  }

  function Other(name: EndpointName): (other: EndpointName)
    ensures other != name
  {
    if name == Primary then Secondary else Primary
  }

  // ---- the synchronous segments ------------------------------------------------------------

  function ScheduleReconnect(m: Manager): Manager {
    if m.destroyed || m.reconnectTimer then m
    else
      m.(reconnectAttempt := m.reconnectAttempt + 1,
         reconnectTimer := true,
         armed := m.armed + [ReconnectDelayMs(m.reconnectAttempt)])
  }

  function Settle(m: Manager, outcome: Option<ActiveEndpoint>): Manager {
    m.(switching := None, settled := m.settled + [Finished(m.order, m.tried, outcome)])
  }

  function Release(m: Manager): Manager {
    match m.active
    case None => m
    case Some(current) => m.(active := None, live := m.live - {current.client})
  }

  /** One turn of the connect loop: the next bootstrap starts, or the work fails. */
  function ConnectInOrder(m: Manager, order: seq<EndpointName>): Manager {
    if order == [] || m.destroyed then
      Settle(ScheduleReconnect(m), None)
    else
      m.(switching := Some(Bootstrapping(order[0], m.created, order[1..])),
         tried := m.tried + [order[0]],
         created := m.created + 1,
         live := m.live + {m.created})
  }

  function StartConnecting(m: Manager, order: seq<EndpointName>): Manager {
    ConnectInOrder(m.(order := order, tried := []), order)
  }

  function Connection(m: Manager): (Manager, Pledge) {
    if m.active.Some? then (m, Ready(m.active.value))
    else if m.switching.Some? then (m, Tracked(|m.settled|))
    else (StartConnecting(m, [m.preferred, Other(m.preferred)]), Tracked(|m.settled|))
  }

  function Failover(m: Manager, failed: ClientId): (Manager, Pledge) {
    if m.switching.Some? then (m, Tracked(|m.settled|))
    else if m.active.None? || m.active.value.client != failed then Connection(m)
    else
      var alternate := Other(m.active.value.name);
      (Release(m).(switching := Some(ClosingOld(alternate, failed)), order := [alternate], tried := [],
                   abandoned := m.abandoned + [failed]),
       Tracked(|m.settled|))
  }

  function SwitchEndpoint(m: Manager): Manager {
    if m.active.None? then Connection(m).0 else Failover(m, m.active.value.client).0
  }

  function BootstrapSucceeded(m: Manager): Manager
    requires m.switching.Some? && m.switching.value.Bootstrapping?
  {
    var endpoint := ActiveEndpoint(m.switching.value.name, m.switching.value.client);
    Settle(m.(active := Some(endpoint), preferred := endpoint.name, reconnectAttempt := 0, armed := []), Some(endpoint))
  }

  function BootstrapFailed(m: Manager): Manager
    requires m.switching.Some? && m.switching.value.Bootstrapping?
  {
    m.(switching := Some(ClosingFailed(m.switching.value.rest, m.switching.value.client)), live := m.live - {m.switching.value.client})
  }

  /** The disconnect the tracked work was awaiting has finished. */
  function DisconnectFinished(m: Manager): Manager
    requires m.switching.Some? && !m.switching.value.Bootstrapping?
  {
    match m.switching.value
    case ClosingOld(alternate, _) => ConnectInOrder(m.(preferred := alternate), [alternate])
    case ClosingFailed(rest, _) => ConnectInOrder(m, rest)
  }

  function TimerFired(m: Manager): Manager {
    Connection(m.(reconnectTimer := false)).0
  }

  function UnexpectedDisconnect(m: Manager, client: ClientId): Manager {
    if m.active.None? || m.active.value.client != client then m else Failover(m, client).0
  }

  /** The last branch of `request`: both sends failed, so the connection is dropped if it is still ours. */
  predicate DropsConnection(m: Manager, client: ClientId) {
    m.active.Some? && m.active.value.client == client && m.switching.None?
  }

  function ShutdownBegins(m: Manager): Manager {
    m.(destroyed := true, reconnectTimer := false)
  }

  // ---- what every segment keeps ------------------------------------------------------------

  predicate IsBootstrapping(m: Manager) {
    m.switching.Some? && m.switching.value.Bootstrapping?
  }

  /** A client that has been handed out, or has failed: it is not the one being bootstrapped. */
  predicate Known(m: Manager, client: ClientId) {
    client < m.created && !(IsBootstrapping(m) && m.switching.value.client == client)
  }

  /** A known client that is not the active one: it will never be active again. */
  predicate Gone(m: Manager, client: ClientId) {
    Known(m, client) && !(m.active.Some? && m.active.value.client == client)
  }

  predicate NoDuplicates(s: seq<ClientId>) {
    forall i, j | 0 <= i < j < |s| :: s[i] != s[j]
  }

  function Backoff(n: nat): (delays: seq<nat>) {
    seq(n, i requires 0 <= i => ReconnectDelayMs(i))
  }

  /** The client the tracked work is busy with. */
  function PhaseClient(phase: Phase): ClientId {
    match phase
    case ClosingOld(_, closing) => closing
    case Bootstrapping(_, client, _) => client
    case ClosingFailed(_, closing) => closing
  }

  /** The client the tracked work is disconnecting. */
  function TrackedClosing(m: Manager): set<ClientId> {
    if m.switching.Some? && !IsBootstrapping(m) then {m.switching.value.closing} else {}
  }

  /** The clients in the manager's own hands: live, or being disconnected by the tracked work. */
  function TrackedOpen(m: Manager): set<ClientId> {
    LiveClients(m) + TrackedClosing(m)
  }

  function LiveClients(m: Manager): set<ClientId> {
    (if m.active.Some? then {m.active.value.client} else {})
    + (if IsBootstrapping(m) then {m.switching.value.client} else {})
  }

  function Remaining(phase: Phase): seq<EndpointName> {
    match phase
    case ClosingOld(alternate, _) => [alternate]
    case Bootstrapping(_, _, rest) => rest
    case ClosingFailed(rest, _) => rest
  }

  /** The latest work is somewhere along its order. */
  predicate OnCourse(m: Manager) {
    m.switching.Some? ==>
      && m.tried + Remaining(m.switching.value) == m.order
      && (IsBootstrapping(m) ==> |m.tried| > 0 && m.tried[|m.tried| - 1] == m.switching.value.name)
  }

  /** A work succeeds at the endpoint it tried last, and fails only when it tried all it was to try. */
  predicate FinishedOk(f: Finished, destroyed: bool) {
    && f.tried <= f.order
    && match f.outcome
       case None => f.tried == f.order || destroyed
       case Some(endpoint) => |f.tried| > 0 && f.tried[|f.tried| - 1] == endpoint.name
  }

  predicate ManagerOk(m: Manager) {
    && (m.active.Some? ==>
          m.switching.None? && m.preferred == m.active.value.name && Known(m, m.active.value.client))
    && (m.active.Some? ==> m.active.value.client + 1 == m.created)
    && (m.switching.Some? ==> PhaseClient(m.switching.value) + 1 == m.created)
    && m.live == LiveClients(m)
    && (forall w | 0 <= w < |m.settled| :: m.settled[w].outcome.Some? ==> Known(m, m.settled[w].outcome.value.client))
    && (forall w | 0 <= w < |m.settled| :: FinishedOk(m.settled[w], m.destroyed))
    && OnCourse(m)
    && (forall c | c in m.abandoned :: Gone(m, c)) && NoDuplicates(m.abandoned)
    && (m.destroyed ==> !m.reconnectTimer)
    && m.armed == Backoff(m.reconnectAttempt)
  }

  /** What one segment may change from the point of view of a caller that is suspended. */
  ghost predicate Evolves(m: Manager, m': Manager) {
    && m.created <= m'.created
    && m.settled <= m'.settled && m.abandoned <= m'.abandoned
    && (m.switching.Some? && |m'.settled| == |m.settled| ==> m'.switching.Some?)
    && (forall c | Known(m, c) :: Known(m', c))
    && (forall c | Gone(m, c) :: Gone(m', c))
    && (forall w | |m.settled| <= w < |m'.settled| ::
          m'.settled[w].outcome.Some? ==> !Known(m, m'.settled[w].outcome.value.client))
    && (m.switching.Some? ==>
          if |m'.settled| == |m.settled| then m'.order == m.order else m'.settled[|m.settled|].order == m.order)
    && (m.destroyed ==> m'.destroyed)
    && (m.destroyed && !IsBootstrapping(m) ==> !IsBootstrapping(m') && m'.created == m.created)
    && (m.destroyed && m.active.None? && !IsBootstrapping(m) ==> m'.active.None?)
  }

  /** A good segment keeps the manager's invariant and disturbs no suspended caller. */
  ghost predicate Good(m: Manager, m': Manager) {
    ManagerOk(m') && Evolves(m, m')
  }

  lemma StandingStillIsGood(m: Manager)
    requires ManagerOk(m)
    ensures Good(m, m)
  {
  }

  lemma ScheduleIsGood(m: Manager)
    requires ManagerOk(m)
    ensures Good(m, ScheduleReconnect(m))
    ensures !m.destroyed ==> ScheduleReconnect(m).reconnectTimer
  {
    var m' := ScheduleReconnect(m);
    assert m'.armed == Backoff(m'.reconnectAttempt);
  }

  lemma ReleaseIsGood(m: Manager)
    requires ManagerOk(m)
    ensures Good(m, Release(m))
    ensures Release(m).active.None? && (m.active.Some? ==> Gone(Release(m), m.active.value.client))
  {
  }

  lemma FailedWorkIsGood(m: Manager, order: seq<EndpointName>)
    requires ManagerOk(m) && m.active.None? && !IsBootstrapping(m) && m.tried + order == m.order
    requires order == [] || m.destroyed
    ensures Good(m, ConnectInOrder(m, order))
    ensures var m' := ConnectInOrder(m, order);
      m'.switching.None? && |m'.settled| == |m.settled| + 1 && (m'.reconnectTimer || m'.destroyed)
  {
    ScheduleIsGood(m);
  }

  lemma NextBootstrapIsGood(m: Manager, order: seq<EndpointName>)
    requires ManagerOk(m) && m.active.None? && !IsBootstrapping(m) && m.tried + order == m.order
    requires order != [] && !m.destroyed
    ensures Good(m, ConnectInOrder(m, order)) && IsBootstrapping(ConnectInOrder(m, order))
  {
  }

  /** Whether the work goes on or fails, it leaves a bootstrap, an armed timer or a destroyed manager. */
  lemma ConnectInOrderIsGood(m: Manager, order: seq<EndpointName>)
    requires ManagerOk(m) && m.active.None? && !IsBootstrapping(m) && m.tried + order == m.order
    ensures Good(m, ConnectInOrder(m, order))
    ensures var m' := ConnectInOrder(m, order);
      IsBootstrapping(m') || (m'.switching.None? && |m'.settled| == |m.settled| + 1 && (m'.reconnectTimer || m'.destroyed))
  {
    hide ManagerOk, Good, ConnectInOrder;
    if order == [] || m.destroyed {
      FailedWorkIsGood(m, order);
    } else {
      NextBootstrapIsGood(m, order);
    }
  }

  predicate PledgeOk(m: Manager, pledge: Pledge) {
    match pledge
    case Ready(endpoint) => Known(m, endpoint.client)
    case Tracked(w) => w <= |m.settled| && (w == |m.settled| ==> m.switching.Some?)
  }

  /** The pledge cannot deliver `client`. */
  predicate Avoids(m: Manager, pledge: Pledge, client: ClientId) {
    match pledge
    case Ready(endpoint) => endpoint.client != client
    case Tracked(w) => w < |m.settled| && m.settled[w].outcome.Some? ==> m.settled[w].outcome.value.client != client
  }

  lemma ConnectionIsGood(m: Manager)
    requires ManagerOk(m)
    ensures var (m', pledge) := Connection(m);
      && Good(m, m') && PledgeOk(m', pledge)
      && (m'.active.Some? || m'.switching.Some? || m'.reconnectTimer || m'.destroyed)
      && (forall c | Gone(m, c) :: Avoids(m', pledge, c))
  {
    if m.active.None? && m.switching.None? {
      var order := [m.preferred, Other(m.preferred)];
      ConnectInOrderIsGood(m.(order := order, tried := []), order);
    }
  }

  /** A failed client is gone afterwards, and its caller is promised a different one. */
  lemma FailoverIsGood(m: Manager, failed: ClientId)
    requires ManagerOk(m) && Known(m, failed)
    ensures var (m', pledge) := Failover(m, failed);
      && Good(m, m') && PledgeOk(m', pledge)
      && (m'.active.Some? || m'.switching.Some? || m'.reconnectTimer || m'.destroyed)
      && Gone(m', failed) && Avoids(m', pledge, failed)
      && m'.abandoned == (if m.active.Some? && m.active.value.client == failed then m.abandoned + [failed] else m.abandoned)
  {
    if m.switching.None? && (m.active.None? || m.active.value.client != failed) {
      ConnectionIsGood(m);
    } else if m.active.Some? {
      assert !Gone(m, failed);
      assert failed !in m.abandoned;
    }
  }

  lemma BootstrapIsGood(m: Manager)
    requires ManagerOk(m) && IsBootstrapping(m)
    ensures Good(m, BootstrapSucceeded(m)) && Good(m, BootstrapFailed(m))
  {
  }

  lemma DisconnectIsGood(m: Manager)
    requires ManagerOk(m) && m.switching.Some? && !IsBootstrapping(m)
    ensures var m' := DisconnectFinished(m);
      Good(m, m') && (m'.switching.Some? || m'.reconnectTimer || m'.destroyed)
  {
    match m.switching.value
    case ClosingOld(alternate, _) => ConnectInOrderIsGood(m.(preferred := alternate), [alternate]);
    case ClosingFailed(rest, _) => ConnectInOrderIsGood(m, rest);
  }

  lemma TimerIsGood(m: Manager)
    requires ManagerOk(m)
    ensures var m' := TimerFired(m);
      Good(m, m') && (m'.active.Some? || m'.switching.Some? || m'.reconnectTimer || m'.destroyed)
  {
    ConnectionIsGood(m.(reconnectTimer := false));
  }

  // ---- what the segments do, in terms of what is observed -----------------------------------

  /** Everything but the tracked work, the clients and what the work settled stays as it was. */
  ghost predicate SameTimer(m: Manager, m': Manager) {
    && m'.reconnectTimer == m.reconnectTimer && m'.reconnectAttempt == m.reconnectAttempt && m'.armed == m.armed
    && m'.destroyed == m.destroyed
  }

  /** A failover away from `left` has begun: its client is being closed, and only the other endpoint is to be tried. */
  ghost predicate LeavesFor(m: Manager, m': Manager, left: ActiveEndpoint) {
    && m'.active.None? && left.client !in m'.live && m'.live <= m.live
    && m'.switching.Some? && m'.switching.value.ClosingOld?
    && m'.switching.value.closing == left.client && m'.switching.value.alternate != left.name
    && m'.order == [m'.switching.value.alternate] && m'.tried == []
    && m'.abandoned == m.abandoned + [left.client]
    && m'.preferred == m.preferred && m'.created == m.created && m'.settled == m.settled && SameTimer(m, m')
  }

  /** The next endpoint is being tried, on a new client, and `rest` after it. */
  ghost predicate Tries(m: Manager, m': Manager, name: EndpointName, rest: seq<EndpointName>) {
    && m'.switching == Some(Bootstrapping(name, m.created, rest)) && m'.active == m.active
    && m'.created == m.created + 1 && m'.live == m.live + {m.created}
    && m'.settled == m.settled && m'.abandoned == m.abandoned && SameTimer(m, m')
  }

  /** A timer is armed with the next delay of the schedule, unless one is armed or the service stops. */
  ghost predicate ArmsTimer(m: Manager, m': Manager) {
    if m.destroyed || m.reconnectTimer then
      SameTimer(m, m')
    else
      && m'.reconnectTimer && !m'.destroyed && m'.reconnectAttempt == m.reconnectAttempt + 1
      && |m'.armed| == |m.armed| + 1 && m.armed <= m'.armed
      && m'.armed[|m.armed|]
         == match m.reconnectAttempt case 0 => 1000 case 1 => 2000 case 2 => 5000 case 3 => 10000 case _ => 30000
  }

  /** The work has failed after what it tried. */
  ghost predicate Fails(m: Manager, m': Manager, order: seq<EndpointName>, tried: seq<EndpointName>) {
    && m'.switching.None? && m'.active == m.active && m'.settled == m.settled + [Finished(order, tried, None)]
    && m'.created == m.created && m'.live == m.live && m'.abandoned == m.abandoned && m'.preferred == m.preferred
    && ArmsTimer(m, m')
  }

  /** An idle manager tries the preferred endpoint first and then the other one; any other stays as it is. */
  ghost predicate ConnectsIfIdle(m: Manager, m': Manager) {
    if m.active.Some? || m.switching.Some? then m' == m
    else
      && |m'.order| == 2 && m'.order[0] == m.preferred && m'.order[1] != m.preferred && m'.preferred == m.preferred
      && if m.destroyed then Fails(m, m', m'.order, [])
         else Tries(m, m', m.preferred, m'.order[1..]) && m'.tried == [m.preferred]
  }

  lemma ConnectionConnects(m: Manager)
    ensures ConnectsIfIdle(m, Connection(m).0)
    ensures Connection(m).1 == if m.active.Some? then Ready(m.active.value) else Tracked(|m.settled|)
  {
  }

  /** Only the client that is active is failed over, and only while no work is in progress. */
  lemma FailoverLeaves(m: Manager, failed: ClientId)
    requires ManagerOk(m)
    ensures var m' := Failover(m, failed).0;
      if m.active.Some? && m.active.value.client == failed then LeavesFor(m, m', m.active.value) else ConnectsIfIdle(m, m')
  {
    hide Connection;
    ConnectionConnects(m);
  }

  /** A lost connection is failed over when it is the active one; the loss of any other client is nothing. */
  lemma LossLeaves(m: Manager, client: ClientId)
    requires ManagerOk(m)
    ensures var m' := UnexpectedDisconnect(m, client);
      if m.active.Some? && m.active.value.client == client then LeavesFor(m, m', m.active.value) else m' == m
  {
    hide Failover, LeavesFor;
    FailoverLeaves(m, client);
  }

  lemma SwitchLeaves(m: Manager)
    requires ManagerOk(m)
    ensures var m' := SwitchEndpoint(m);
      if m.active.Some? then LeavesFor(m, m', m.active.value) else ConnectsIfIdle(m, m')
  {
    hide Failover, Connection, LeavesFor, ConnectsIfIdle;
    ConnectionConnects(m);
    if m.active.Some? {
      FailoverLeaves(m, m.active.value.client);
    }
  }

  lemma TimerConnects(m: Manager)
    ensures ConnectsIfIdle(m.(reconnectTimer := false), TimerFired(m)) && !TimerFired(m).reconnectTimer
  {
    ConnectionConnects(m.(reconnectTimer := false));
  }

  /** A successful bootstrap makes its endpoint active and preferred, and restarts the schedule. */
  lemma SuccessInstalls(m: Manager)
    requires ManagerOk(m) && IsBootstrapping(m)
    ensures var (m', phase) := (BootstrapSucceeded(m), m.switching.value);
      && m'.active == Some(ActiveEndpoint(phase.name, phase.client)) && m'.preferred == phase.name && m'.switching.None?
      && m'.reconnectAttempt == 0 && m'.armed == [] && m'.reconnectTimer == m.reconnectTimer && m'.destroyed == m.destroyed
      && m'.settled == m.settled + [Finished(m.order, m.tried, m'.active)]
      && m'.live == {phase.client} && m'.created == m.created && m'.abandoned == m.abandoned
  {
  }

  /** A failed bootstrap closes its client; the rest of the order is still to be tried. */
  lemma FailureCloses(m: Manager)
    requires ManagerOk(m) && IsBootstrapping(m)
    ensures var (m', phase) := (BootstrapFailed(m), m.switching.value);
      && m'.switching == Some(ClosingFailed(phase.rest, phase.client)) && m'.live == {} && m'.active.None?
      && m'.preferred == m.preferred && m'.order == m.order && m'.tried == m.tried
      && m'.settled == m.settled && m'.created == m.created && m'.abandoned == m.abandoned && SameTimer(m, m')
  {
  }

  /** The work goes on: with the alternate, which is preferred from now on, or with the rest of its order. */
  lemma DisconnectGoesOn(m: Manager)
    requires ManagerOk(m) && m.switching.Some? && !IsBootstrapping(m)
    ensures var m' := DisconnectFinished(m);
      match m.switching.value
      case ClosingOld(alternate, _) =>
        && m'.preferred == alternate && m'.order == m.order
        && (if m.destroyed then Fails(m.(preferred := alternate), m', m.order, m.tried)
            else Tries(m, m', alternate, []) && m'.tried == m.tried + [alternate])
      case ClosingFailed(rest, _) =>
        && m'.preferred == m.preferred && m'.order == m.order
        && (if m.destroyed || rest == [] then Fails(m, m', m.order, m.tried)
            else Tries(m, m', rest[0], rest[1..]) && m'.tried == m.tried + [rest[0]])
      case Bootstrapping(_, _, _) => false
  {
    if m.switching.value.ClosingOld? {
      assert [m.switching.value.alternate][1..] == [];
    }
  }

  lemma DisconnectKeepsDestroyed(m: Manager)
    requires m.switching.Some? && !IsBootstrapping(m)
    ensures DisconnectFinished(m).destroyed == m.destroyed && DisconnectFinished(m).order == m.order
  {
  }

  lemma ReleaseDrops(m: Manager)
    requires ManagerOk(m)
    ensures var m' := Release(m);
      && m'.active.None? && m'.switching == m.switching && m'.preferred == m.preferred && SameTimer(m, m')
      && m'.created == m.created && m'.settled == m.settled && m'.abandoned == m.abandoned
      && m'.order == m.order && m'.tried == m.tried
      && (if m.active.Some? then m'.live == {} else m'.live == m.live)
  {
  }

  lemma ScheduleArms(m: Manager)
    ensures var m' := ScheduleReconnect(m);
      && ArmsTimer(m, m') && m'.active == m.active && m'.switching == m.switching && m'.preferred == m.preferred
      && m'.live == m.live && m'.created == m.created && m'.settled == m.settled && m'.abandoned == m.abandoned
      && m'.order == m.order && m'.tried == m.tried
  {
  }

  // ---- any number of callers ---------------------------------------------------------------

  datatype Sent = Sent(client: ClientId, payload: string)

  /** Where one `request` call is suspended. */
  datatype Progress =
    | AwaitFirst(pledge: Pledge)
    | SendingFirst(first: ClientId)
    | AwaitSecond(failed: ClientId, next: Pledge)
    | SendingSecond(failed: ClientId, second: ClientId)
    | Releasing(released: ClientId)
    | Answered
    | Threw
    | Unavailable

  datatype Call = Call(payload: string, sent: seq<Sent>, progress: Progress)

  datatype Shutdown = NotCalled | AwaitingSwitch(work: Option<nat>) | ClosingLast(last: Option<ClientId>) | Returned

  datatype System = System(manager: Manager, calls: map<nat, Call>, shutdown: Shutdown)

  /** How one send ended: with a response, with a transport failure, or with any other exception. */
  datatype SendEnd = Delivered | TransportFailure | OtherError

  datatype Action =
    | EnsureConnected
    | Switch
    | ConnectionLost(client: ClientId)
    | TimerFires
    | BootstrapEnds(ok: bool)
    | DisconnectEnds
    | StartRequest(id: nat, payload: string)
    | FirstResumes(id: nat)
    | FirstEnds(id: nat, end: SendEnd)
    | SecondResumes(id: nat)
    | SecondEnds(id: nat, end: SendEnd)
    | ReleaseEnds(id: nat)
    | ShutdownCalled
    | ShutdownResumes
    | ShutdownReturns

  predicate IsSettled(m: Manager, pledge: Pledge) {
    pledge.Ready? || pledge.work < |m.settled|
  }

  /** The call waits for a connection that has neither come nor failed. */
  predicate IsWaiting(m: Manager, p: Progress) {
    (p.AwaitFirst? && !IsSettled(m, p.pledge)) || (p.AwaitSecond? && !IsSettled(m, p.next))
  }

  function Outcome(m: Manager, pledge: Pledge): Option<ActiveEndpoint>
    requires IsSettled(m, pledge)
  {
    match pledge
    case Ready(endpoint) => Some(endpoint)
    case Tracked(w) => m.settled[w].outcome
  }

  predicate Enabled(s: System, a: Action) {
    match a
    case EnsureConnected => true
    case Switch => true
    case ConnectionLost(client) => client < s.manager.created
    case TimerFires => s.manager.reconnectTimer
    case BootstrapEnds(_) => IsBootstrapping(s.manager)
    case DisconnectEnds => s.manager.switching.Some? && !IsBootstrapping(s.manager)
    case StartRequest(id, _) => id !in s.calls
    case FirstResumes(id) =>
      id in s.calls && s.calls[id].progress.AwaitFirst? && IsSettled(s.manager, s.calls[id].progress.pledge)
    case FirstEnds(id, _) => id in s.calls && s.calls[id].progress.SendingFirst?
    case SecondResumes(id) =>
      id in s.calls && s.calls[id].progress.AwaitSecond? && IsSettled(s.manager, s.calls[id].progress.next)
    case SecondEnds(id, _) => id in s.calls && s.calls[id].progress.SendingSecond?
    case ReleaseEnds(id) => id in s.calls && s.calls[id].progress.Releasing?
    case ShutdownCalled => s.shutdown.NotCalled?
    case ShutdownResumes =>
      s.shutdown.AwaitingSwitch? && (s.shutdown.work.Some? ==> s.shutdown.work.value < |s.manager.settled|)
    case ShutdownReturns => s.shutdown.ClosingLast?
  }

  function Moved(s: System, m: Manager, id: nat, progress: Progress): System
    requires id in s.calls
  {
    s.(manager := m, calls := s.calls[id := s.calls[id].(progress := progress)])
  }

  /** The call has its endpoint and sends its payload there. */
  function Sending(s: System, id: nat, client: ClientId, progress: Progress): System
    requires id in s.calls
  {
    var call := s.calls[id];
    s.(calls := s.calls[id := call.(sent := call.sent + [Sent(client, call.payload)], progress := progress)])
  }

  function Apply(s: System, a: Action): System
    requires Enabled(s, a)
  {
    var m := s.manager;
    match a
    case EnsureConnected => s.(manager := Connection(m).0)
    case Switch => s.(manager := SwitchEndpoint(m))
    case ConnectionLost(client) => s.(manager := UnexpectedDisconnect(m, client))
    case TimerFires => s.(manager := TimerFired(m))
    case BootstrapEnds(ok) => s.(manager := if ok then BootstrapSucceeded(m) else BootstrapFailed(m))
    case DisconnectEnds => s.(manager := DisconnectFinished(m))
    case StartRequest(id, payload) =>
      var (m', pledge) := Connection(m);
      s.(manager := m', calls := s.calls[id := Call(payload, [], AwaitFirst(pledge))])
    case FirstResumes(id) =>
      (match Outcome(m, s.calls[id].progress.pledge)
       case None => Moved(s, m, id, Unavailable)
       case Some(endpoint) => Sending(s, id, endpoint.client, SendingFirst(endpoint.client)))
    case FirstEnds(id, end) =>
      if end == Delivered then Moved(s, m, id, Answered)
      else if end == OtherError then Moved(s, m, id, Threw)
      else
        var first := s.calls[id].progress.first;
        var (m', pledge) := Failover(m, first);
        Moved(s, m', id, AwaitSecond(first, pledge))
    case SecondResumes(id) =>
      var progress := s.calls[id].progress;
      (match Outcome(m, progress.next)
       case None => Moved(s, m, id, Unavailable)
       case Some(endpoint) => Sending(s, id, endpoint.client, SendingSecond(progress.failed, endpoint.client)))
    case SecondEnds(id, end) =>
      if end == Delivered then Moved(s, m, id, Answered)
      else if end == OtherError then Moved(s, m, id, Threw)
      else if DropsConnection(m, s.calls[id].progress.second) then
        Moved(s, Release(m), id, Releasing(s.calls[id].progress.second))
      else Moved(s, m, id, Unavailable)
    case ReleaseEnds(id) => Moved(s, ScheduleReconnect(m), id, Unavailable)
    case ShutdownCalled =>
      s.(manager := ShutdownBegins(m),
         shutdown := AwaitingSwitch(if m.switching.Some? then Some(|m.settled|) else None))
    case ShutdownResumes => s.(manager := Release(m), shutdown := ClosingLast(if m.active.Some? then Some(m.active.value.client) else None))
    case ShutdownReturns => s.(shutdown := Returned)
  }

  /** The clients of the sends so far, all with the call's own payload. */
  predicate SentExactly(call: Call, clients: seq<ClientId>) {
    && |call.sent| == |clients|
    && forall k | 0 <= k < |clients| :: call.sent[k] == Sent(clients[k], call.payload)
  }

  /** At most two sends of the call's own payload, on two different clients. */
  predicate AtMostTwo(call: Call) {
    && |call.sent| <= 2
    && (forall k | 0 <= k < |call.sent| :: call.sent[k].payload == call.payload)
    && (|call.sent| == 2 ==> call.sent[0].client != call.sent[1].client)
  }

  predicate CallOk(m: Manager, call: Call) {
    && AtMostTwo(call)
    && match call.progress
       case AwaitFirst(pledge) => PledgeOk(m, pledge) && SentExactly(call, [])
       case SendingFirst(first) => Known(m, first) && SentExactly(call, [first])
       case AwaitSecond(failed, next) =>
         && PledgeOk(m, next) && Avoids(m, next, failed) && Gone(m, failed)
         && SentExactly(call, [failed])
       case SendingSecond(failed, second) =>
         Gone(m, failed) && Known(m, second) && SentExactly(call, [failed, second])
       case Releasing(released) => Known(m, released)
       case Answered => |call.sent| >= 1
       case _ => true
  }

  predicate SomeoneReleasing(s: System) {
    exists id | id in s.calls :: s.calls[id].progress.Releasing?
  }

  /** Once a connect was attempted, the manager is connected, switching or about to reconnect. */
  predicate WillReconnect(s: System) {
    var m := s.manager;
    m.created > 0 && !m.destroyed && m.active.None? && m.switching.None? ==> m.reconnectTimer || SomeoneReleasing(s)
  }

  /** A bootstrap that outlives the start of the shutdown is the one the shutdown waits for. */
  predicate ShutdownOk(s: System) {
    var m := s.manager;
    match s.shutdown
    case NotCalled => !m.destroyed
    case AwaitingSwitch(work) => m.destroyed && (IsBootstrapping(m) ==> work == Some(|m.settled|))
    case ClosingLast(last) =>
      m.destroyed && m.active.None? && !IsBootstrapping(m) && (last.Some? ==> last.value < m.created)
    case Returned => m.destroyed && m.active.None? && !IsBootstrapping(m)
  }

  predicate SystemOk(s: System) {
    && ManagerOk(s.manager)
    && (forall id | id in s.calls :: CallOk(s.manager, s.calls[id]))
    && WillReconnect(s) && ShutdownOk(s)
  }

  /** A suspended call stays sound through any good segment of anyone else. */
  lemma CallStaysOk(m: Manager, m': Manager, call: Call)
    requires ManagerOk(m) && Good(m, m') && CallOk(m, call)
    ensures CallOk(m', call)
  {
    hide ManagerOk, SentExactly, AtMostTwo;
  }

  // ---- every step of anyone keeps the system invariant -------------------------------------

  /** The manager's segment behind an action keeps the manager sound and the clients' future open. */
  lemma ManagerStepIsGood(s: System, a: Action)
    requires SystemOk(s) && Enabled(s, a)
    ensures Good(s.manager, Apply(s, a).manager)
  {
    hide ManagerOk, Good, CallOk, WillReconnect, ShutdownOk, Connection, Failover, SwitchEndpoint, UnexpectedDisconnect,
         TimerFired, BootstrapSucceeded, BootstrapFailed, DisconnectFinished, ScheduleReconnect, Release, ShutdownBegins;
    var m := s.manager;
    StandingStillIsGood(m);
    match a
    case EnsureConnected => ConnectionIsGood(m);
    case Switch => SwitchIsGood(m);
    case ConnectionLost(client) => LossIsGood(m, client);
    case TimerFires => TimerIsGood(m);
    case BootstrapEnds(ok) => BootstrapIsGood(m);
    case DisconnectEnds => DisconnectIsGood(m);
    case StartRequest(id, payload) => ConnectionIsGood(m);
    case FirstEnds(id, end) => FirstFails(s, id);
    case SecondEnds(id, end) => ReleaseIsGood(m);
    case ReleaseEnds(id) => ScheduleIsGood(m);
    case ShutdownCalled => ShutdownIsGood(m);
    case ShutdownResumes => ReleaseIsGood(m);
    case _ =>
  }

  /** From here on nothing is scheduled, and no tracked work starts another bootstrap. */
  lemma ShutdownIsGood(m: Manager)
    requires ManagerOk(m)
    ensures Good(m, ShutdownBegins(m))
  {
  }

  lemma SwitchIsGood(m: Manager)
    requires ManagerOk(m)
    ensures var m' := SwitchEndpoint(m);
      Good(m, m') && (m'.active.Some? || m'.switching.Some? || m'.reconnectTimer || m'.destroyed)
  {
    if m.active.None? {
      ConnectionIsGood(m);
    } else {
      FailoverIsGood(m, m.active.value.client);
    }
  }

  lemma LossIsGood(m: Manager, client: ClientId)
    requires ManagerOk(m)
    ensures var m' := UnexpectedDisconnect(m, client);
      Good(m, m') && (m' != m ==> m'.active.Some? || m'.switching.Some? || m'.reconnectTimer || m'.destroyed)
  {
    if m.active.Some? && m.active.value.client == client {
      FailoverIsGood(m, client);
    }
  }

  lemma FirstFails(s: System, id: nat)
    requires SystemOk(s) && id in s.calls && s.calls[id].progress.SendingFirst?
    ensures var first := s.calls[id].progress.first; var (m', pledge) := Failover(s.manager, first);
      && Good(s.manager, m')
      && CallOk(m', s.calls[id].(progress := AwaitSecond(first, pledge)))
      && (m'.active.Some? || m'.switching.Some? || m'.reconnectTimer || m'.destroyed)
  {
    hide ManagerOk, Evolves;
    FailoverIsGood(s.manager, s.calls[id].progress.first);
  }

  /** The call whose segment ran ends up sound. */
  lemma OwnCallIsOk(s: System, a: Action, id: nat)
    requires SystemOk(s) && Enabled(s, a)
    requires CallOf(a) == Some(id)
    ensures id in Apply(s, a).calls && CallOk(Apply(s, a).manager, Apply(s, a).calls[id])
  {
    hide WillReconnect, ShutdownOk, ManagerOk, Good, Connection, Failover, ScheduleReconnect, Outcome;
    var m := s.manager;
    match a
    case StartRequest(_, payload) => ConnectionIsGood(m);
    case FirstResumes(_) => OutcomeIsKnown(m, s.calls[id].progress.pledge);
    case FirstEnds(_, end) => FirstFails(s, id);
    case SecondResumes(_) => OutcomeIsKnown(m, s.calls[id].progress.next);
    case SecondEnds(_, _) => ReleaseIsGood(m);
    case _ =>
  }

  /** A settled pledge yields a client that is out of its bootstrap, and not one it avoids. */
  lemma OutcomeIsKnown(m: Manager, pledge: Pledge)
    requires ManagerOk(m) && PledgeOk(m, pledge) && IsSettled(m, pledge)
    ensures Outcome(m, pledge).Some? ==>
      && Known(m, Outcome(m, pledge).value.client)
      && forall c | Avoids(m, pledge, c) :: Outcome(m, pledge).value.client != c
  {
  }

  lemma CallsStayOk(s: System, a: Action)
    requires SystemOk(s) && Enabled(s, a)
    ensures forall k | k in Apply(s, a).calls :: CallOk(Apply(s, a).manager, Apply(s, a).calls[k])
  {
    hide CallOk, ManagerOk, WillReconnect, ShutdownOk, Good, Apply, Enabled;
    ManagerStepIsGood(s, a);
    OnlyTheOwnerMoves(s, a);
    var s' := Apply(s, a);
    if CallOf(a).Some? {
      OwnCallIsOk(s, a, CallOf(a).value);
    }
    forall k | k in s'.calls && CallOf(a) != Some(k) ensures CallOk(s'.manager, s'.calls[k]) {
      CallStaysOk(s.manager, s'.manager, s.calls[k]);
    }
  }

  /** Whose call an action belongs to. */
  function CallOf(a: Action): Option<nat> {
    match a
    case StartRequest(id, _) => Some(id)
    case FirstResumes(id) => Some(id)
    case FirstEnds(id, _) => Some(id)
    case SecondResumes(id) => Some(id)
    case SecondEnds(id, _) => Some(id)
    case ReleaseEnds(id) => Some(id)
    case _ => None
  }

  /** While a call is suspended nobody else's segment moves it. */
  lemma OnlyTheOwnerMoves(s: System, a: Action)
    requires Enabled(s, a)
    ensures var s' := Apply(s, a);
      && s'.calls.Keys == s.calls.Keys + (if CallOf(a).Some? then {CallOf(a).value} else {})
      && forall k | k in s.calls && CallOf(a) != Some(k) :: s'.calls[k] == s.calls[k]
  {
    hide Connection, Failover, SwitchEndpoint, UnexpectedDisconnect, TimerFired, BootstrapSucceeded, BootstrapFailed,
         DisconnectFinished, ScheduleReconnect, Release, ShutdownBegins, Outcome;
  }

  /** Either the segment leaves the manager connected, switching or scheduled, or it changes nothing that matters. */
  lemma ReconnectStaysPlanned(s: System, a: Action)
    requires SystemOk(s) && Enabled(s, a)
    ensures WillReconnect(Apply(s, a))
  {
    hide CallOk, ManagerOk, Good, Connection, Failover, SwitchEndpoint, UnexpectedDisconnect, TimerFired, DisconnectFinished,
         Outcome;
    var m, s' := s.manager, Apply(s, a);
    match a
    case EnsureConnected => ConnectionIsGood(m);
    case Switch => SwitchIsGood(m);
    case ConnectionLost(client) => LossIsGood(m, client);
    case TimerFires => TimerIsGood(m);
    case BootstrapEnds(ok) =>
    case DisconnectEnds => DisconnectIsGood(m);
    case StartRequest(id, _) => ConnectionIsGood(m);
    case FirstEnds(id, end) =>
      if end != TransportFailure {
        StillReleasing(s, s', id);
      } else {
        FirstFails(s, id);
      }
    case FirstResumes(id) => StillReleasing(s, s', id);
    case SecondResumes(id) => StillReleasing(s, s', id);
    case SecondEnds(id, _) =>
      if s'.calls[id].progress.Releasing? {
        assert SomeoneReleasing(s');
      } else {
        StillReleasing(s, s', id);
      }
    case ReleaseEnds(id) => ScheduleIsGood(m);
    case _ =>
  }

  lemma StillReleasing(s: System, s': System, id: nat)
    requires id in s.calls && !s.calls[id].progress.Releasing?
    requires id in s'.calls && s'.calls == s.calls[id := s'.calls[id]]
    ensures SomeoneReleasing(s) ==> SomeoneReleasing(s')
  {
    if k :| k in s.calls && s.calls[k].progress.Releasing? {
      assert s'.calls[k].progress.Releasing?;
    }
  }

  lemma ShutdownStaysOk(s: System, a: Action)
    requires SystemOk(s) && Enabled(s, a)
    ensures ShutdownOk(Apply(s, a))
  {
    hide CallOk, WillReconnect;
    ManagerStepIsGood(s, a);
  }

  lemma StepKeepsOk(s: System, a: Action)
    requires SystemOk(s) && Enabled(s, a)
    ensures SystemOk(Apply(s, a)) && Good(s.manager, Apply(s, a).manager)
  {
    hide CallOk, ManagerOk, WillReconnect, ShutdownOk, Evolves;
    ManagerStepIsGood(s, a);
    CallsStayOk(s, a);
    ReconnectStaysPlanned(s, a);
    ShutdownStaysOk(s, a);
  }

  // ---- whole runs --------------------------------------------------------------------------

  ghost predicate Next(s: System, s': System) {
    exists a: Action :: Enabled(s, a) && s' == Apply(s, a)
  }

  /** Any interleaving of requests, switches, losses, timer firings and one shutdown. */
  ghost predicate IsRun(run: seq<System>) {
    && |run| > 0
    && run[0] == System(INITIAL, map[], NotCalled)
    && forall i | 0 <= i < |run| - 1 :: Next(run[i], run[i + 1])
  }

  lemma TheStep(s: System, s': System) returns (a: Action)
    requires Next(s, s')
    ensures Enabled(s, a) && s' == Apply(s, a)
  {
    a :| Enabled(s, a) && s' == Apply(s, a);
  }

  lemma RunExtends(run: seq<System>, a: Action, s: System)
    requires IsRun(run) && Enabled(run[|run| - 1], a) && s == Apply(run[|run| - 1], a)
    ensures IsRun(run + [s])
  {
    hide Enabled, Apply;
    var longer := run + [s];
    forall i | 0 <= i < |longer| - 1 ensures Next(longer[i], longer[i + 1]) {
      assert i < |run| - 1 ==> Next(run[i], run[i + 1]);
    }
  }

  lemma InitialIsOk()
    ensures SystemOk(System(INITIAL, map[], NotCalled))
  {
    assert Backoff(0) == [];
  }

  lemma {:induction false} RunIsOk(run: seq<System>, i: nat)
    requires IsRun(run) && i < |run|
    ensures SystemOk(run[i])
  {
    hide SystemOk, Good, Apply, Enabled;
    if i == 0 {
      InitialIsOk();
    } else {
      RunIsOk(run, i - 1);
      var a := TheStep(run[i - 1], run[i]);
      StepKeepsOk(run[i - 1], a);
    }
  }

  lemma GoodIsTransitive(a: Manager, b: Manager, c: Manager)
    requires ManagerOk(a) && Good(a, b) && Good(b, c)
    ensures Good(a, c)
  {
    hide ManagerOk;
    assert a.destroyed && !IsBootstrapping(a) ==> b.destroyed && !IsBootstrapping(b);
  }

  lemma {:induction false} RunIsGood(run: seq<System>, i: nat, j: nat)
    requires IsRun(run) && i <= j < |run|
    ensures ManagerOk(run[i].manager) && Good(run[i].manager, run[j].manager)
  {
    hide Good, ManagerOk, CallOk, WillReconnect, ShutdownOk, Apply, Enabled;
    RunIsOk(run, i);
    if i == j {
      StandingStillIsGood(run[i].manager);
    } else {
      RunIsGood(run, i, j - 1);
      RunIsOk(run, j - 1);
      var a := TheStep(run[j - 1], run[j]);
      StepKeepsOk(run[j - 1], a);
      GoodIsTransitive(run[i].manager, run[j - 1].manager, run[j].manager);
    }
  }

  /** At most one client is live, the active one if there is one, and `preferred` names its endpoint. */
  lemma AtMostOneLiveClient(run: seq<System>, i: nat)
    requires IsRun(run) && i < |run|
    ensures var m := run[i].manager;
      && |m.live| <= 1
      && (m.active.Some? ==> m.live == {m.active.value.client} && m.preferred == m.active.value.name)
  {
    hide IsRun;
    RunIsOk(run, i);
    var m := run[i].manager;
    assert m.live == {} || exists c :: m.live == {c};
  }

  /** A manager that ever tried to connect is connected, connecting, scheduled to, or about to schedule. */
  lemma NoLostReconnect(run: seq<System>, i: nat)
    requires IsRun(run) && i < |run|
    requires var m := run[i].manager; m.created > 0 && !m.destroyed && m.active.None? && m.switching.None?
    ensures run[i].manager.reconnectTimer || SomeoneReleasing(run[i])
  {
    hide IsRun;
    RunIsOk(run, i);
  }

  /** A call that still waits for a tracked work waits for the one in progress. */
  lemma NobodyWaitsForNothing(run: seq<System>, i: nat, id: nat)
    requires IsRun(run) && i < |run| && id in run[i].calls
    ensures var (m, p) := (run[i].manager, run[i].calls[id].progress);
      && (p.AwaitFirst? && !IsSettled(m, p.pledge) ==> m.switching.Some? && p.pledge.work == |m.settled|)
      && (p.AwaitSecond? && !IsSettled(m, p.next) ==> m.switching.Some? && p.next.work == |m.settled|)
  {
    hide IsRun, ManagerOk;
    RunIsOk(run, i);
  }

  predicate HasReleased(s: System) {
    s.shutdown.ClosingLast? || s.shutdown.Returned?
  }

  lemma ReleasedStaysReleased(s: System, a: Action)
    requires Enabled(s, a) && HasReleased(s)
    ensures HasReleased(Apply(s, a))
  {
  }

  lemma {:induction false} ReleasedForGood(run: seq<System>, i: nat, j: nat)
    requires IsRun(run) && i <= j < |run| && HasReleased(run[i])
    ensures HasReleased(run[j])
  {
    hide Apply, Enabled;
    if i < j {
      ReleasedForGood(run, i, j - 1);
      var a := TheStep(run[j - 1], run[j]);
      ReleasedStaysReleased(run[j - 1], a);
    }
  }

  /** Once the shutdown has released the connection nothing is live, bootstrapping or scheduled, ever again. */
  lemma CleanShutdown(run: seq<System>, i: nat, j: nat)
    requires IsRun(run) && i <= j < |run| && HasReleased(run[i])
    ensures var m := run[j].manager;
      m.live == {} && m.active.None? && !m.reconnectTimer && !IsBootstrapping(m) && m.created == run[i].manager.created
  {
    hide IsRun, CallOk;
    ReleasedForGood(run, i, j);
    RunIsOk(run, i);
    RunIsOk(run, j);
    RunIsGood(run, i, j);
  }

  /** A call's sends only grow and its payload never changes. */
  lemma CallGrows(s: System, a: Action, id: nat)
    requires Enabled(s, a) && id in s.calls
    ensures var s' := Apply(s, a);
      id in s'.calls && s'.calls[id].payload == s.calls[id].payload && s.calls[id].sent <= s'.calls[id].sent
  {
    hide Connection, Failover, SwitchEndpoint;
  }

  lemma {:induction false} CallGrowsAlongRun(run: seq<System>, i: nat, j: nat, id: nat)
    requires IsRun(run) && i <= j < |run| && id in run[i].calls
    ensures id in run[j].calls && run[j].calls[id].payload == run[i].calls[id].payload
    ensures run[i].calls[id].sent <= run[j].calls[id].sent
  {
    hide Apply, Enabled;
    if i < j {
      CallGrowsAlongRun(run, i, j - 1, id);
      var a := TheStep(run[j - 1], run[j]);
      CallGrows(run[j - 1], a, id);
    }
  }

  /** From its start to any later moment, one request sends at most two payloads: its own, on two clients. */
  lemma AtMostTwoIdenticalSends(run: seq<System>, i: nat, j: nat, id: nat)
    requires IsRun(run) && i <= j < |run| && id in run[i].calls
    ensures id in run[j].calls && AtMostTwo(run[j].calls[id])
    ensures run[j].calls[id].payload == run[i].calls[id].payload && run[i].calls[id].sent <= run[j].calls[id].sent
  {
    hide IsRun, ManagerOk;
    CallGrowsAlongRun(run, i, j, id);
    RunIsOk(run, j);
  }

  /**
   * However many calls fail on one client, one switch is started for it: the later failure starts
   * none, and the client is gone from then on.
   */
  lemma ConcurrentFailuresShareOneSwitch(run: seq<System>, i: nat, j: nat, id: nat, other: nat, client: ClientId)
    requires IsRun(run) && i < j < |run| - 1
    requires Enabled(run[i], FirstEnds(id, TransportFailure)) && run[i + 1] == Apply(run[i], FirstEnds(id, TransportFailure))
    requires Enabled(run[j], FirstEnds(other, TransportFailure)) && run[j + 1] == Apply(run[j], FirstEnds(other, TransportFailure))
    requires run[i].calls[id].progress == SendingFirst(client) && run[j].calls[other].progress == SendingFirst(client)
    ensures var (before, after) := (run[i].manager, run[j + 1].manager);
      && after.abandoned == run[j].manager.abandoned && NoDuplicates(after.abandoned)
      && (before.active.Some? && before.active.value.client == client ==> client in after.abandoned)
      && Gone(after, client) && client !in after.live
  {
    hide IsRun, ManagerOk, Failover, Connection;
    FailureMeansGone(run, i, id, client);
    RunIsGood(run, i + 1, j);
    FailureMeansGone(run, j, other, client);
    GoneIsClosed(run[j + 1].manager, client);
    if run[i].manager.active.Some? && run[i].manager.active.value.client == client {
      PrefixKeeps(run[i].manager.abandoned, run[j].manager.abandoned, client);
    }
  }

  lemma GoneIsClosed(m: Manager, client: ClientId)
    requires ManagerOk(m) && Gone(m, client)
    ensures client !in m.live && NoDuplicates(m.abandoned)
  {
  }

  lemma PrefixKeeps(s: seq<ClientId>, t: seq<ClientId>, c: ClientId)
    requires s + [c] <= t
    ensures c in t
  {
    assert t[|s|] == c;
  }

  lemma FailureMeansGone(run: seq<System>, i: nat, id: nat, client: ClientId)
    requires IsRun(run) && i < |run| - 1
    requires Enabled(run[i], FirstEnds(id, TransportFailure)) && run[i + 1] == Apply(run[i], FirstEnds(id, TransportFailure))
    requires run[i].calls[id].progress == SendingFirst(client)
    ensures ManagerOk(run[i].manager) && ManagerOk(run[i + 1].manager) && Gone(run[i + 1].manager, client)
    ensures var m := run[i].manager;
      run[i + 1].manager.abandoned
      == if m.active.Some? && m.active.value.client == client then m.abandoned + [client] else m.abandoned
  {
    hide IsRun, ManagerOk, WillReconnect, ShutdownOk;
    RunIsOk(run, i);
    RunIsOk(run, i + 1);
    FailoverIsGood(run[i].manager, client);
  }

  /** Since the last successful connect, the n-th armed timer waited for the n-th delay of the schedule. */
  lemma BackoffFollowsSchedule(run: seq<System>, i: nat)
    requires IsRun(run) && i < |run|
    ensures var m := run[i].manager;
      && |m.armed| == m.reconnectAttempt
      && (forall k | 0 <= k < |m.armed| :: m.armed[k] == ReconnectDelayMs(k))
      && (forall k, l | 0 <= k <= l < |m.armed| :: 1000 <= m.armed[k] <= m.armed[l] <= 30000)
  {
    hide IsRun;
    RunIsOk(run, i);
    var m := run[i].manager;
    forall k, l | 0 <= k <= l < |m.armed| ensures 1000 <= m.armed[k] <= m.armed[l] <= 30000 {
      DelaysGrowToTheCap(k, l);
    }
  }

  /** No failback: a connection is given up only for its own failure, on request, or at shutdown. */
  lemma ActiveIsSticky(s: System, a: Action)
    requires SystemOk(s) && Enabled(s, a) && s.manager.active.Some?
    ensures var (active, m') := (s.manager.active.value, Apply(s, a).manager);
      m'.active != Some(active) ==>
        && m'.active.None? && active.client !in m'.live
        && match a
           case Switch => true
           case ShutdownResumes => true
           case ConnectionLost(client) => client == active.client
           case FirstEnds(id, end) => end == TransportFailure && s.calls[id].progress.first == active.client
           case SecondEnds(id, end) => end == TransportFailure && s.calls[id].progress.second == active.client
           case _ => false
  {
    hide CallOk;
  }

  /** `before` to `after` is the step in which a failover from `left` starts. */
  predicate StartsFailover(before: Manager, after: Manager, left: ActiveEndpoint) {
    before.active == Some(left) && after.abandoned == before.abandoned + [left.client]
  }

  lemma FailoverHeadsElsewhere(s: System, a: Action, left: ActiveEndpoint)
    requires SystemOk(s) && Enabled(s, a) && StartsFailover(s.manager, Apply(s, a).manager, left)
    ensures var m' := Apply(s, a).manager;
      m'.switching.Some? && m'.order == [Other(left.name)] && |m'.settled| == |s.manager.settled|
  {
    hide CallOk, WillReconnect, ShutdownOk;
    assert Apply(s, a).manager != s.manager;
    assert |Apply(s, a).manager.abandoned| > |s.manager.abandoned|;
  }

  /**
   * A failover tries the other endpoint and no more: whenever it settles, either that endpoint is
   * the outcome, or it was tried and failed, or the manager is shutting down.
   */
  lemma FailoverTriesTheOther(run: seq<System>, i: nat, j: nat, left: ActiveEndpoint)
    requires IsRun(run) && i < j < |run| && StartsFailover(run[i].manager, run[i + 1].manager, left)
    ensures var (work, m) := (|run[i].manager.settled|, run[j].manager);
      work < |m.settled| ==>
        && (m.settled[work].outcome.Some? ==> m.settled[work].outcome.value.name == Other(left.name))
        && (m.settled[work].outcome.None? ==> m.settled[work].tried == [Other(left.name)] || m.destroyed)
  {
    hide CallOk, WillReconnect, ShutdownOk, Apply, Enabled;
    RunIsOk(run, i);
    var a := TheStep(run[i], run[i + 1]);
    FailoverHeadsElsewhere(run[i], a, left);
    RunIsGood(run, i + 1, j);
    RunIsOk(run, j);
    var work := |run[i].manager.settled|;
    if work < |run[j].manager.settled| {
      assert FinishedOk(run[j].manager.settled[work], run[j].manager.destroyed);
    }
  }

  /**
   * The loss of the active connection starts a failover from it, whatever else is going on; the
   * lost client is gone and never active or live again.
   */
  lemma LossStartsFailover(run: seq<System>, i: nat, j: nat, client: ClientId)
    requires IsRun(run) && i < j < |run|
    requires Enabled(run[i], ConnectionLost(client)) && run[i + 1] == Apply(run[i], ConnectionLost(client))
    ensures var (m, m') := (run[i].manager, run[i + 1].manager);
      if m.active.Some? && m.active.value.client == client then
        && LeavesFor(m, m', m.active.value) && client in m'.abandoned
        && Gone(run[j].manager, client) && client !in run[j].manager.live
        && (run[j].manager.active.Some? ==> run[j].manager.active.value.client != client)
      else m' == m
  {
    hide IsRun, ManagerOk, UnexpectedDisconnect, LeavesFor, CallOk, WillReconnect, ShutdownOk;
    RunIsOk(run, i);
    RunIsOk(run, j);
    LossLeaves(run[i].manager, client);
    var m := run[i].manager;
    if m.active.Some? && m.active.value.client == client {
      LeftIsAbandoned(m, run[i + 1].manager, m.active.value);
      RunIsOk(run, i + 1);
      AbandonedIsGone(run[i + 1].manager, client);
      RunIsGood(run, i + 1, j);
      GoneIsClosed(run[j].manager, client);
    }
  }

  lemma LeftIsAbandoned(m: Manager, m': Manager, left: ActiveEndpoint)
    requires LeavesFor(m, m', left)
    ensures left.client in m'.abandoned
  {
    assert m'.abandoned[|m.abandoned|] == left.client;
  }

  lemma AbandonedIsGone(m: Manager, client: ClientId)
    requires ManagerOk(m) && client in m.abandoned
    ensures Gone(m, client)
  {
  }

  /** A requested switch leaves the active endpoint; with none active an idle manager connects. */
  lemma SwitchStartsFailover(run: seq<System>, i: nat)
    requires IsRun(run) && i + 1 < |run| && run[i + 1] == Apply(run[i], Switch)
    ensures var (m, m') := (run[i].manager, run[i + 1].manager);
      if m.active.Some? then LeavesFor(m, m', m.active.value) else ConnectsIfIdle(m, m')
  {
    hide IsRun, ManagerOk, SwitchEndpoint, CallOk, WillReconnect, ShutdownOk;
    RunIsOk(run, i);
    SwitchLeaves(run[i].manager);
  }

  /** Whatever makes an idle manager connect, it tries the preferred endpoint first. */
  lemma PreferredIsTriedFirst(run: seq<System>, i: nat, a: Action)
    requires IsRun(run) && i + 1 < |run| && Enabled(run[i], a) && run[i + 1] == Apply(run[i], a)
    requires a.EnsureConnected? || a.Switch? || a.StartRequest? || a.TimerFires?
    requires var m := run[i].manager; m.active.None? && m.switching.None? && !m.destroyed
    ensures var (m, m') := (run[i].manager, run[i + 1].manager);
      && m'.switching == Some(Bootstrapping(m.preferred, m.created, m'.order[1..]))
      && |m'.order| == 2 && m'.order[0] == m.preferred && m'.order[1] != m.preferred && m.created in m'.live
  {
    hide IsRun, Connection, TimerFired;
    var m := run[i].manager;
    ConnectionConnects(m);
    TimerConnects(m);
  }

  /** The failover from `left` is under way as work number `work`, or has settled, and nothing newer left an endpoint. */
  ghost predicate StaysAway(m: Manager, work: nat, abandoned: nat, alternate: EndpointName) {
    && work <= |m.settled| && abandoned <= |m.abandoned|
    && (|m.settled| == work ==>
          && m.switching.Some? && m.order == [alternate] && |m.abandoned| == abandoned
          && (m.switching.value.ClosingOld? ==> m.switching.value.alternate == alternate)
          && (!m.switching.value.ClosingOld? ==> m.preferred == alternate))
    && (|m.settled| == work + 1 && |m.abandoned| == abandoned ==>
          m.preferred == alternate && (m.switching.Some? ==> !m.switching.value.ClosingOld?))
  }

  /** The tracked work and its history are as they were. */
  ghost predicate SameWork(m: Manager, m': Manager) {
    m'.switching == m.switching && m'.settled == m.settled && m'.abandoned == m.abandoned && m'.order == m.order
    && m'.preferred == m.preferred
  }

  lemma OtherSegmentsKeepWork(m: Manager)
    ensures SameWork(m, m) && SameWork(m, ScheduleReconnect(m)) && SameWork(m, Release(m)) && SameWork(m, ShutdownBegins(m))
  {
  }

  lemma IdleStaysAway(m: Manager, m': Manager, work: nat, abandoned: nat, alternate: EndpointName)
    requires StaysAway(m, work, abandoned, alternate) && (SameWork(m, m') || ConnectsIfIdle(m, m'))
    ensures StaysAway(m', work, abandoned, alternate)
  {
  }

  lemma LeaverStaysAway(m: Manager, m': Manager, left: ActiveEndpoint, work: nat, abandoned: nat, alternate: EndpointName)
    requires ManagerOk(m) && m.active == Some(left)
    requires StaysAway(m, work, abandoned, alternate) && LeavesFor(m, m', left)
    ensures StaysAway(m', work, abandoned, alternate)
  {
  }

  lemma WorkStaysAway(m: Manager, work: nat, abandoned: nat, alternate: EndpointName)
    requires ManagerOk(m) && m.switching.Some? && StaysAway(m, work, abandoned, alternate)
    ensures IsBootstrapping(m) ==>
      StaysAway(BootstrapSucceeded(m), work, abandoned, alternate) && StaysAway(BootstrapFailed(m), work, abandoned, alternate)
    ensures !IsBootstrapping(m) ==> StaysAway(DisconnectFinished(m), work, abandoned, alternate)
  {
    hide DisconnectFinished, BootstrapSucceeded, BootstrapFailed;
    if IsBootstrapping(m) {
      SuccessInstalls(m);
      FailureCloses(m);
      if m.order == [alternate] {
        OnlyOneToTry(m, alternate);
      }
    } else {
      DisconnectGoesOn(m);
    }
  }

  lemma OnlyOneToTry(m: Manager, name: EndpointName)
    requires OnCourse(m) && IsBootstrapping(m) && m.order == [name]
    ensures m.switching.value.name == name
  {
    assert |m.tried + m.switching.value.rest| == 1;
    assert (m.tried + m.switching.value.rest)[0] == m.tried[0];
  }

  lemma StepStaysAway(s: System, a: Action, work: nat, abandoned: nat, alternate: EndpointName)
    requires SystemOk(s) && Enabled(s, a) && StaysAway(s.manager, work, abandoned, alternate)
    ensures StaysAway(Apply(s, a).manager, work, abandoned, alternate)
  {
    hide ManagerOk, CallOk, WillReconnect, ShutdownOk, Outcome, StaysAway, SameWork, ConnectsIfIdle, LeavesFor,
         Connection, Failover, SwitchEndpoint, UnexpectedDisconnect, TimerFired, BootstrapSucceeded, BootstrapFailed,
         DisconnectFinished, ScheduleReconnect, Release, ShutdownBegins;
    var m, m' := s.manager, Apply(s, a).manager;
    OtherSegmentsKeepWork(m);
    ConnectionConnects(m);
    match a
    case Switch => SwitchLeaves(m); AwayThrough(m, m', work, abandoned, alternate);
    case ConnectionLost(client) => LossLeaves(m, client); AwayThrough(m, m', work, abandoned, alternate);
    case TimerFires =>
      TimerConnects(m);
      TimerIsNoWork(m, work, abandoned, alternate);
      IdleStaysAway(m.(reconnectTimer := false), m', work, abandoned, alternate);
    case BootstrapEnds(_) => WorkStaysAway(m, work, abandoned, alternate);
    case DisconnectEnds => WorkStaysAway(m, work, abandoned, alternate);
    case FirstEnds(id, end) => FailoverLeaves(m, s.calls[id].progress.first); AwayThrough(m, m', work, abandoned, alternate);
    case _ => IdleStaysAway(m, m', work, abandoned, alternate);
  }

  lemma TimerIsNoWork(m: Manager, work: nat, abandoned: nat, alternate: EndpointName)
    requires StaysAway(m, work, abandoned, alternate)
    ensures StaysAway(m.(reconnectTimer := false), work, abandoned, alternate)
  {
  }

  lemma AwayThrough(m: Manager, m': Manager, work: nat, abandoned: nat, alternate: EndpointName)
    requires ManagerOk(m) && StaysAway(m, work, abandoned, alternate)
    requires SameWork(m, m') || ConnectsIfIdle(m, m') || (m.active.Some? && LeavesFor(m, m', m.active.value))
    ensures StaysAway(m', work, abandoned, alternate)
  {
    hide ManagerOk, StaysAway, SameWork, ConnectsIfIdle, LeavesFor;
    if m.active.Some? && LeavesFor(m, m', m.active.value) {
      LeaverStaysAway(m, m', m.active.value, work, abandoned, alternate);
    } else {
      IdleStaysAway(m, m', work, abandoned, alternate);
    }
  }

  /**
   * Once a failover has gone on to the alternate, that endpoint is preferred, and stays so whether
   * or not it answers, until a later connect succeeds or a later failover leaves it.
   */
  lemma {:induction false} AlternateIsPreferred(run: seq<System>, i: nat, j: nat, left: ActiveEndpoint)
    requires IsRun(run) && i < j < |run| && StartsFailover(run[i].manager, run[i + 1].manager, left)
    ensures StaysAway(run[j].manager, |run[i].manager.settled|, |run[i + 1].manager.abandoned|, Other(left.name))
  {
    hide IsRun, StaysAway, SystemOk, Apply, Enabled;
    if j == i + 1 {
      StartStaysAway(run, i, left);
    } else {
      AlternateIsPreferred(run, i, j - 1, left);
      RunIsOk(run, j - 1);
      var a := StepOf(run, j - 1);
      StepStaysAway(run[j - 1], a, |run[i].manager.settled|, |run[i + 1].manager.abandoned|, Other(left.name));
    }
  }

  lemma StepOf(run: seq<System>, i: nat) returns (a: Action)
    requires IsRun(run) && i + 1 < |run|
    ensures Enabled(run[i], a) && run[i + 1] == Apply(run[i], a)
  {
    hide Enabled, Apply;
    a := TheStep(run[i], run[i + 1]);
  }

  lemma StartStaysAway(run: seq<System>, i: nat, left: ActiveEndpoint)
    requires IsRun(run) && i + 1 < |run| && StartsFailover(run[i].manager, run[i + 1].manager, left)
    ensures StaysAway(run[i + 1].manager, |run[i].manager.settled|, |run[i + 1].manager.abandoned|, Other(left.name))
  {
    hide IsRun, CallOk, WillReconnect, ShutdownOk, Apply, Enabled;
    RunIsOk(run, i);
    var a := StepOf(run, i);
    FailoverHeadsElsewhere(run[i], a, left);
    FailoverIsClosing(run[i], a, left);
  }

  lemma FailoverIsClosing(s: System, a: Action, left: ActiveEndpoint)
    requires SystemOk(s) && Enabled(s, a) && StartsFailover(s.manager, Apply(s, a).manager, left)
    ensures var m' := Apply(s, a).manager; m'.switching == Some(ClosingOld(Other(left.name), left.client))
  {
    hide CallOk, WillReconnect, ShutdownOk;
    assert |Apply(s, a).manager.abandoned| > |s.manager.abandoned|;
  }

  /**
   * A successful connect restarts the schedule: nothing counts as armed any more, and a timer that
   * is armed when nothing is counted waits for one second.
   */
  lemma SuccessRestartsBackoff(s: System, a: Action)
    requires SystemOk(s) && Enabled(s, a)
    ensures var (m, m') := (s.manager, Apply(s, a).manager);
      && (a == BootstrapEnds(true) ==> m'.armed == [] && m'.reconnectAttempt == 0)
      && (a != BootstrapEnds(true) ==> m.armed <= m'.armed <= m.armed + m'.armed[|m.armed|..])
      && (m'.reconnectTimer && !m.reconnectTimer ==> |m'.armed| == |m.armed| + 1)
      && (m'.armed != m.armed && a != BootstrapEnds(true) ==>
            && m'.reconnectTimer && (!m.reconnectTimer || a.TimerFires?)
            && |m'.armed| == |m.armed| + 1 && (m.armed == [] ==> m'.armed == [1000]))
  {
    hide CallOk, WillReconnect, ShutdownOk, Outcome;
  }

  /** After a request failed on both endpoints the connection is dropped, if it is still the one it was sent on. */
  lemma SecondFailureDrops(s: System, id: nat)
    requires SystemOk(s) && Enabled(s, SecondEnds(id, TransportFailure))
    ensures var (m, s') := (s.manager, Apply(s, SecondEnds(id, TransportFailure))); var second := s.calls[id].progress.second;
      if m.active.Some? && m.active.value.client == second then
        && s'.manager.active.None? && s'.manager.live == {} && s'.manager.switching.None?
        && s'.calls[id].progress == Releasing(second)
      else s'.manager == m && s'.calls[id].progress == Unavailable
  {
    hide CallOk, WillReconnect, ShutdownOk;
  }

  /** When that release has finished the caller is told, and a timer is armed. */
  lemma ReleaseArms(s: System, id: nat)
    requires SystemOk(s) && Enabled(s, ReleaseEnds(id))
    ensures var s' := Apply(s, ReleaseEnds(id));
      && s'.calls[id].progress == Unavailable && ArmsTimer(s.manager, s'.manager)
      && (s'.manager.reconnectTimer || s'.manager.destroyed)
  {
    hide CallOk, WillReconnect, ShutdownOk, ScheduleReconnect;
    ScheduleArms(s.manager);
  }

  // ---- open connections --------------------------------------------------------------------

  /** Clients released outside the tracked work whose disconnect has not finished. */
  function UntrackedClosing(s: System): set<ClientId> {
    (set id | id in s.calls && s.calls[id].progress.Releasing? :: s.calls[id].progress.released)
    + (if s.shutdown.ClosingLast? && s.shutdown.last.Some? then {s.shutdown.last.value} else {})
  }

  /** Every client that is live, or whose `disconnect()` has been called and has not finished. */
  function OpenClients(s: System): set<ClientId> {
    TrackedOpen(s.manager) + UntrackedClosing(s)
  }

  lemma UntrackedIsKnown(s: System)
    requires SystemOk(s)
    ensures forall c | c in UntrackedClosing(s) :: c < s.manager.created
  {
    hide ManagerOk;
  }

  /**
   * More than one client is open exactly when an untracked release overlaps newer connection work:
   * some client is still being disconnected outside the tracked work while a newer one is open.
   */
  lemma SeveralOpenExactlyWhen(run: seq<System>, i: nat)
    requires IsRun(run) && i < |run|
    ensures |OpenClients(run[i])| > 1 <==>
      exists older, newer :: older in UntrackedClosing(run[i]) && newer in OpenClients(run[i]) && older < newer
    ensures UntrackedClosing(run[i]) == {} ==> |OpenClients(run[i])| <= 1
  {
    hide IsRun, CallOk;
    RunIsOk(run, i);
    var s := run[i];
    UntrackedIsKnown(s);
    if |OpenClients(s)| > 1 {
      var a, b := TwoOf(OpenClients(s));
      TrackedIsNewest(s.manager);
      assert a !in TrackedOpen(s.manager);
      assert a in UntrackedClosing(s);
    }
    if older, newer :| older in UntrackedClosing(s) && newer in OpenClients(s) && older < newer {
      BothIn(OpenClients(s), older, newer);
    }
  }

  /** The step starts a bootstrap, and with it a new client. */
  predicate StartsBootstrap(s: System, a: Action)
    requires Enabled(s, a)
  {
    Apply(s, a).manager.created > s.manager.created
  }

  /**
   * The step at which a second client opens is exactly a bootstrap that starts while a release
   * outside the tracked work has not finished. No other step opens anything.
   */
  lemma SecondOpensExactlyWhen(s: System, a: Action)
    requires SystemOk(s) && Enabled(s, a) && |OpenClients(s)| <= 1
    ensures |OpenClients(Apply(s, a))| > 1 <==> StartsBootstrap(s, a) && UntrackedClosing(s) != {}
    ensures !StartsBootstrap(s, a) ==> OpenClients(Apply(s, a)) <= OpenClients(s)
  {
    hide SystemOk, Apply, Enabled, TrackedOpen, UntrackedClosing;
    var s' := Apply(s, a);
    TrackedStep(s, a);
    UntrackedStep(s, a);
    if StartsBootstrap(s, a) {
      UntrackedIsKnown(s);
      var newer := s.manager.created;
      assert OpenClients(s') == {newer} + UntrackedClosing(s);
      if older :| older in UntrackedClosing(s) {
        BothIn(OpenClients(s'), older, newer);
      }
    } else {
      SubsetIsSmaller(OpenClients(s'), OpenClients(s));
    }
  }

  /** What the manager's segments do to the clients in its own hands. */
  predicate OpensAtMostNew(m: Manager, m': Manager) {
    if m'.created == m.created then TrackedOpen(m') <= TrackedOpen(m)
    else m'.created == m.created + 1 && TrackedOpen(m') == {m.created}
  }

  lemma ConnectOpensNew(m: Manager, order: seq<EndpointName>)
    requires m.active.None? && !IsBootstrapping(m)
    ensures OpensAtMostNew(m, ConnectInOrder(m, order))
  {
  }

  lemma ConnectionOpensNew(m: Manager)
    requires ManagerOk(m)
    ensures OpensAtMostNew(m, Connection(m).0)
  {
    hide ManagerOk, OpensAtMostNew, ConnectInOrder;
    if m.active.None? && m.switching.None? {
      var order := [m.preferred, Other(m.preferred)];
      ConnectOpensNew(m.(order := order, tried := []), order);
      SameTracked(m, m.(order := order, tried := []), StartConnecting(m, order));
    } else {
      SameTracked(m, m, m);
    }
  }

  lemma SameTracked(m: Manager, n: Manager, m': Manager)
    requires n.created == m.created && n.active == m.active && n.switching == m.switching
    ensures OpensAtMostNew(n, m') ==> OpensAtMostNew(m, m')
    ensures OpensAtMostNew(m, n)
  {
  }

  lemma FailoverOpensNew(m: Manager, failed: ClientId)
    requires ManagerOk(m)
    ensures OpensAtMostNew(m, Failover(m, failed).0)
  {
    hide Connection;
    ConnectionOpensNew(m);
  }

  lemma TimerOpensNew(m: Manager)
    requires ManagerOk(m)
    ensures OpensAtMostNew(m, TimerFired(m))
  {
    hide Connection, OpensAtMostNew;
    var n := m.(reconnectTimer := false);
    ConnectionOpensNew(n);
    SameTracked(m, n, TimerFired(m));
  }

  lemma DisconnectOpensNew(m: Manager)
    requires ManagerOk(m) && m.switching.Some? && !IsBootstrapping(m)
    ensures OpensAtMostNew(m, DisconnectFinished(m))
  {
    match m.switching.value
    case ClosingOld(alternate, _) => ConnectOpensNew(m.(preferred := alternate), [alternate]);
    case ClosingFailed(rest, _) => ConnectOpensNew(m, rest);
  }

  lemma OtherSegmentsOpenNothing(m: Manager)
    ensures OpensAtMostNew(m, m) && OpensAtMostNew(m, ScheduleReconnect(m)) && OpensAtMostNew(m, Release(m))
    ensures OpensAtMostNew(m, ShutdownBegins(m))
    ensures IsBootstrapping(m) ==> OpensAtMostNew(m, BootstrapSucceeded(m)) && OpensAtMostNew(m, BootstrapFailed(m))
  {
  }

  lemma TrackedStep(s: System, a: Action)
    requires SystemOk(s) && Enabled(s, a)
    ensures OpensAtMostNew(s.manager, Apply(s, a).manager)
  {
    hide ManagerOk, CallOk, WillReconnect, ShutdownOk, OpensAtMostNew, Connection, Failover, TimerFired, BootstrapSucceeded,
         BootstrapFailed, DisconnectFinished, ScheduleReconnect, Release, ShutdownBegins;
    var m := s.manager;
    OtherSegmentsOpenNothing(m);
    match a
    case EnsureConnected => ConnectionOpensNew(m);
    case Switch =>
      if m.active.Some? {
        FailoverOpensNew(m, m.active.value.client);
      } else {
        ConnectionOpensNew(m);
      }
    case ConnectionLost(client) => FailoverOpensNew(m, client);
    case TimerFires => TimerOpensNew(m);
    case DisconnectEnds => DisconnectOpensNew(m);
    case StartRequest(id, payload) => ConnectionOpensNew(m);
    case FirstEnds(id, end) => FailoverOpensNew(m, s.calls[id].progress.first);
    case _ =>
  }

  lemma UntrackedStep(s: System, a: Action)
    requires Enabled(s, a)
    ensures UntrackedClosing(Apply(s, a)) <= UntrackedClosing(s) + TrackedOpen(s.manager)
    ensures StartsBootstrap(s, a) ==> UntrackedClosing(Apply(s, a)) == UntrackedClosing(s)
  {
    hide Connection, Failover, SwitchEndpoint, UnexpectedDisconnect, TimerFired, BootstrapSucceeded, BootstrapFailed,
         DisconnectFinished, Outcome;
    if StartsBootstrap(s, a) {
      SameReleases(s, Apply(s, a));
    }
  }

  lemma SameReleases(s: System, s': System)
    requires s'.shutdown == s.shutdown && s.calls.Keys <= s'.calls.Keys
    requires forall id | id in s.calls ::
      || s'.calls[id].progress == s.calls[id].progress
      || (!s'.calls[id].progress.Releasing? && !s.calls[id].progress.Releasing?)
    requires forall id | id in s'.calls && id !in s.calls :: !s'.calls[id].progress.Releasing?
    ensures UntrackedClosing(s') == UntrackedClosing(s)
  {
  }

  /** The manager's own client is the newest one. */
  lemma TrackedIsNewest(m: Manager)
    requires ManagerOk(m)
    ensures forall c | c in TrackedOpen(m) :: c + 1 == m.created
  {
  }

  lemma TwoOf(s: set<ClientId>) returns (a: ClientId, b: ClientId)
    requires |s| > 1
    ensures a in s && b in s && a < b
  {
    var x :| x in s;
    assert |s - {x}| >= 1;
    var y :| y in s - {x};
    a, b := if x < y then x else y, if x < y then y else x;
  }

  lemma BothIn(s: set<ClientId>, a: ClientId, b: ClientId)
    requires a in s && b in s && a != b
    ensures |s| > 1
  {
    assert {a, b} <= s;
    SubsetIsSmaller({a, b}, s);
  }

  const PRIMARY_WORK := Finished([Primary, Secondary], [Primary], Some(ActiveEndpoint(Primary, 0)))
  const SECONDARY_WORK := Finished([Secondary], [Secondary], Some(ActiveEndpoint(Secondary, 1)))

  /** After one request connected, sent, and failed: the switch to the secondary is closing client 0. */
  const FAILING_OVER := System(
    Manager(None, Primary, Some(ClosingOld(Secondary, 0)), 0, false, false, 1, {}, [Secondary], [], [PRIMARY_WORK], [], [0]),
    map[0 := Call("ping", [Sent(0, "ping")], AwaitSecond(0, Tracked(1)))],
    NotCalled)

  /** After its retry failed as well: client 1 is being released outside the tracked work. */
  const RELEASING := System(
    Manager(None, Secondary, None, 0, false, false, 2, {}, [Secondary], [Secondary], [PRIMARY_WORK, SECONDARY_WORK], [], [0]),
    map[0 := Call("ping", [Sent(0, "ping"), Sent(1, "ping")], Releasing(1))],
    NotCalled)

  lemma Take(run: seq<System>, a: Action) returns (longer: seq<System>)
    requires IsRun(run) && |run| > 0 && Enabled(run[|run| - 1], a)
    ensures IsRun(longer) && |longer| > 0 && longer[|longer| - 1] == Apply(run[|run| - 1], a)
  {
    hide IsRun, Enabled, Apply;
    longer := run + [Apply(run[|run| - 1], a)];
    RunExtends(run, a, Apply(run[|run| - 1], a));
  }

  /** Connected to the primary, with the request waiting to resume. */
  const CONNECTED := System(
    Manager(Some(ActiveEndpoint(Primary, 0)), Primary, None, 0, false, false, 1, {0}, [Primary, Secondary], [Primary], [PRIMARY_WORK], [], []),
    map[0 := Call("ping", [], AwaitFirst(Tracked(0)))],
    NotCalled)

  lemma ReachConnected() returns (run: seq<System>)
    ensures IsRun(run) && |run| > 0 && run[|run| - 1] == CONNECTED
  {
    hide IsRun;
    run := [System(INITIAL, map[], NotCalled)];
    StartIsRun();
    run := Take(run, StartRequest(0, "ping"));
    assert run[|run| - 1].manager.tried == [Primary] && run[|run| - 1].manager.order == [Primary, Secondary];
    run := Take(run, BootstrapEnds(true));
    assert run[|run| - 1].manager.settled == [PRIMARY_WORK];
    SameState(run[|run| - 1], CONNECTED);
  }

  lemma ReachFailingOver() returns (run: seq<System>)
    ensures IsRun(run) && |run| > 0 && run[|run| - 1] == FAILING_OVER
  {
    hide IsRun;
    run := ReachConnected();
    run := Take(run, FirstResumes(0));
    run := Take(run, FirstEnds(0, TransportFailure));
    SameState(run[|run| - 1], FAILING_OVER);
  }

  lemma SameState(s: System, t: System)
    requires s.shutdown == t.shutdown && s.calls.Keys == t.calls.Keys
    requires forall id | id in t.calls ::
      && s.calls[id].payload == t.calls[id].payload
      && s.calls[id].progress == t.calls[id].progress && s.calls[id].sent == t.calls[id].sent
    requires var (m, n) := (s.manager, t.manager);
      && m.(live := n.live, order := n.order, tried := n.tried, settled := n.settled, armed := n.armed, abandoned := n.abandoned) == n
      && m.live == n.live && m.order == n.order && m.tried == n.tried && m.settled == n.settled && m.armed == n.armed
      && m.abandoned == n.abandoned
    ensures s == t
  {
  }

  lemma StartIsRun()
    ensures IsRun([System(INITIAL, map[], NotCalled)])
  {
  }

  lemma ReachReleasing() returns (run: seq<System>)
    ensures IsRun(run) && |run| > 0 && run[|run| - 1] == RELEASING
  {
    hide IsRun;
    run := ReachFailingOver();
    run := Take(run, DisconnectEnds);
    run := Take(run, BootstrapEnds(true));
    run := Take(run, SecondResumes(0));
    run := Take(run, SecondEnds(0, TransportFailure));
    SameState(run[|run| - 1], RELEASING);
  }

  /**
   * One request whose two sends both fail, and one caller that asks for a connection before the
   * final release has finished: clients 1 and 2 are open at once.
   */
  lemma TwoClientsCanBeOpen() returns (run: seq<System>)
    ensures IsRun(run) && |run| > 0 && OpenClients(run[|run| - 1]) == {1, 2}
  {
    hide IsRun;
    run := ReachReleasing();
    run := Take(run, EnsureConnected);
    assert run[|run| - 1].calls[0].progress == Releasing(1);
  }
}
