/**
 * Every run keeps the books in order: whatever names a connection does so under the room and user
 * that the connection announced, and a route call has a fate for exactly the targets it has
 * dispatched to.
 */
module GatewayKeys {
  import opened GatewayProtocol
  import opened Registry
  import opened Gateway

  type Conns = map<ConnId, Conn>

  // ---- keys ----

  predicate IsConn(conns: Conns, c: ConnId, room: Id, user: Id) {
    c in conns && conns[c].room == room && conns[c].user == user
  }

  ghost predicate EntriesKeyed(rooms: Rooms<Id, ConnId>, conns: Conns) {
    forall r, u :: Registered(rooms, r, u) ==> IsConn(conns, rooms[r][u], r, u)
  }

  ghost predicate AreConns(conns: Conns, room: Id, targets: seq<ConnTarget>) {
    forall i :: 0 <= i < |targets| ==> IsConn(conns, targets[i].conn, room, targets[i].user)
  }

  /** The targets of a route call are registered connections of its room, one per user. */
  ghost predicate RouteKeyed(rt: Route, conns: Conns) {
    match rt.phase
    case Scanning(_, seen) => rt.header.targetType.Broadcast? && AreConns(conns, rt.room, seen) && DistinctUsers(seen)
    case Sending(_, _, targets, next) =>
      && rt.header.targetType.Broadcast? && next <= |targets|
      && AreConns(conns, rt.room, targets) && DistinctUsers(targets)
    case _ => true
  }

  ghost predicate RoutesKeyed(routes: map<RouteId, Route>, conns: Conns) {
    forall t :: t in routes ==> RouteKeyed(routes[t], conns)
  }

  /** A packet of this route call may go to this connection. */
  predicate Addressed(rt: Route, conn: Conn) {
    conn.room == rt.room && (rt.header.targetType.Unicast? ==> conn.user == rt.user)
  }

  ghost predicate FatesKeyed(fates: map<(RouteId, ConnId), Fate>, routes: map<RouteId, Route>, conns: Conns) {
    forall t, c :: (t, c) in fates ==>
      && t in routes && c in conns && Addressed(routes[t], conns[c])
      && (fates[(t, c)].RetryPending? ==> conns[c].user == fates[(t, c)].user)
  }

  ghost predicate UnregsKeyed(unregs: map<Owner, Unreg>, conns: Conns) {
    forall o :: o in unregs ==> IsConn(conns, o.conn, unregs[o].room, unregs[o].user)
  }

  ghost predicate Keyed(s: State) {
    && s.chans.Keys == s.conns.Keys
    && EntriesKeyed(s.rooms, s.conns)
    && RoutesKeyed(s.routes, s.conns)
    && FatesKeyed(s.fates, s.routes, s.conns)
    && UnregsKeyed(s.unregs, s.conns)
  }

  // ---- fates ----

  /** The route call has dispatched to this connection. */
  predicate Dispatched(rt: Route, c: ConnId) {
    match rt.phase
    case Sending(_, _, targets, next) => exists i :: 0 <= i < next && i < |targets| && targets[i].conn == c
    case BroadcastDone(_, _, targets) => exists i :: 0 <= i < |targets| && targets[i].conn == c
    case UnicastDone(target) => target.Some? && target.value.conn == c
    case _ => false
  }

  ghost predicate Ledger(fates: map<(RouteId, ConnId), Fate>, routes: map<RouteId, Route>) {
    forall t, c :: (t, c) in fates <==> t in routes && Dispatched(routes[t], c)
  }

  /** Each unregistration has its reason: the handler has left, or the retry has failed. */
  ghost predicate OwnersDone(unregs: map<Owner, Unreg>, conns: Conns, fates: map<(RouteId, ConnId), Fate>) {
    forall o :: o in unregs ==>
      match o
      case ByHandler(c) => c in conns && conns[c].phase.Left?
      case ByRetry(t, c) => (t, c) in fates && fates[(t, c)].RetryFailed?
  }

  ghost predicate Books(s: State) {
    Keyed(s) && Ledger(s.fates, s.routes) && OwnersDone(s.unregs, s.conns, s.fates)
  }

  // ---- handlers and unregistrations keep the books ----

  ghost predicate KeysKept(conns: Conns, conns': Conns) {
    forall c :: c in conns ==> IsConn(conns', c, conns[c].room, conns[c].user)
  }

  lemma KeyedWithConns(s: State, conns: Conns)
    requires Keyed(s) && KeysKept(s.conns, conns)
    ensures EntriesKeyed(s.rooms, conns) && RoutesKeyed(s.routes, conns)
    ensures FatesKeyed(s.fates, s.routes, conns) && UnregsKeyed(s.unregs, conns)
  {
  }

  lemma RegisterKeepsBooks(s: State, step: HandlerStep)
    requires Books(s) && HandlerEnabled(s, step) && (step.EnterRoom? || step.InsertSelf?)
    ensures Books(HandlerEffect(s, step))
  {
    KeyedWithConns(s, HandlerEffect(s, step).conns);
  }

  lemma HandlerKeepsBooks(s: State, step: HandlerStep)
    requires Books(s) && HandlerEnabled(s, step)
    ensures Books(HandlerEffect(s, step))
  {
    if step.EnterRoom? || step.InsertSelf? {
      RegisterKeepsBooks(s, step);
    } else {
      KeyedWithConns(s, HandlerEffect(s, step).conns);
    }
  }

  lemma UnregKeepsBooks(s: State, step: UnregStep)
    requires Books(s) && UnregEnabled(s, step)
    ensures Books(UnregEffect(s, step))
  {
  }

  // ---- route calls keep the books ----

  lemma SetRouteKeepsBooks(s: State, t: RouteId, phase: RoutePhase)
    requires Keyed(s) && OwnersDone(s.unregs, s.conns, s.fates) && t in s.routes
    requires var rt := s.routes[t].(phase := phase);
      RouteKeyed(rt, s.conns) && forall c :: (t, c) in s.fates <==> Dispatched(rt, c)
    requires forall t', c :: t' != t ==> ((t', c) in s.fates <==> t' in s.routes && Dispatched(s.routes[t'], c))
    ensures Books(SetRoute(s, t, phase))
  {
  }

  lemma ScanKeepsBooks(s: State, step: ScanStep)
    requires Books(s) && ScanEnabled(s, step)
    ensures Books(ScanEffect(s, step))
  {
    var t := step.route;
    var rt := s.routes[t];
    assert RouteKeyed(rt, s.conns);
    if step.Visit? {
      assert Registered(s.rooms, rt.room, step.user);
    }
    SetRouteKeepsBooks(s, t, ScanEffect(s, step).routes[t].phase);
  }

  lemma DispatchKeepsKeys(s: State, t: RouteId, target: ConnTarget)
    requires Books(s) && t in s.routes && target.conn in s.conns
    requires Addressed(s.routes[t], s.conns[target.conn]) && s.conns[target.conn].user == target.user
    requires !Dispatched(s.routes[t], target.conn)
    ensures var s' := Dispatch(s, t, target); Keyed(s') && OwnersDone(s'.unregs, s'.conns, s'.fates)
    ensures Dispatch(s, t, target).fates.Keys == s.fates.Keys + {(t, target.conn)}
  {
  }

  /** A target about to be served is a connection of the room, has its own user, and had no fate yet. */
  lemma SendTargetIsNew(s: State, step: SendStep)
    requires Books(s) && SendEnabled(s, step) && SendTarget(s, step).Some?
    ensures var rt, target := s.routes[step.route], SendTarget(s, step).value;
      && IsConn(s.conns, target.conn, rt.room, target.user) && Addressed(rt, s.conns[target.conn])
      && !Dispatched(rt, target.conn)
  {
  }

  lemma SendKeepsBooks(s: State, step: SendStep)
    requires Books(s) && SendEnabled(s, step)
    ensures Books(SendEffect(s, step))
  {
    var t := step.route;
    var target := SendTarget(s, step);
    var phase := SendEffect(s, step).routes[t].phase;
    assert RouteKeyed(s.routes[t], s.conns);
    if target.Some? {
      SendTargetIsNew(s, step);
      DispatchKeepsKeys(s, t, target.value);
      var s1 := Dispatch(s, t, target.value);
      forall c ensures (t, c) in s1.fates <==> Dispatched(s.routes[t].(phase := phase), c) {
        assert (t, c) in s1.fates <==> Dispatched(s.routes[t], c) || c == target.value.conn;
      }
      SetRouteKeepsBooks(s1, t, phase);
    } else {
      SetRouteKeepsBooks(s, t, phase);
    }
  }

  lemma QueueKeepsBooks(s: State, step: QueueStep)
    requires Books(s) && QueueEnabled(s, step)
    ensures Books(QueueEffect(s, step))
  {
  }

  lemma NextKeepsBooks(s: State, step: Step)
    requires Books(s)
    ensures Books(Next(s, step))
  {
    if Enabled(s, step) {
      match step
      case Handler(handler) => HandlerKeepsBooks(s, handler);
      case Unregister(unregister) => UnregKeepsBooks(s, unregister);
      case Scan(scan) => ScanKeepsBooks(s, scan);
      case Send(send) => SendKeepsBooks(s, send);
      case Queue(queue) => QueueKeepsBooks(s, queue);
      case Arrive(t, raw) =>
    }
  }
}
