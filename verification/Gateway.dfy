/**
 * The running gateway as a state machine: connection handlers, spawned route tasks, SystemCmd
 * retry tasks and two-phase unregistrations, interleaved in every possible way. A step is one
 * atomic access to the shared state. A read guard on a room is held by the tasks whose phase
 * says so, and the entry guard of register by the handler in phase Entering.
 */
module Gateway {
  import opened Wrappers
  import opened GatewayProtocol
  import opened Channel
  import opened Registry
  import opened Backpressure

  const WS_CHANNEL_CAPACITY: nat := 64

  type ConnId = int
  type RouteId = int

  /** A queued packet, and the route call that sent it. */
  datatype Item = Item(packet: Frame, route: RouteId)

  /**
   * A handler owns its sender (Opening), holds the entry guard (Entering), is registered but not
   * yet counted, serves, has left its loop (Closing), or runs its unregister (Left).
   */
  datatype ConnPhase = Opening | Entering | Uncounted | Serving | Closing | Left

  datatype Conn = Conn(room: Id, user: Id, phase: ConnPhase)

  type ConnTarget = Target<Id, ConnId>

  /**
   * Scanning, Sending and Addressing hold a read guard on the room. `start` and `finish` are the
   * room's members when the scan began and ended.
   */
  datatype RoutePhase =
    | Spawned
    | Scanning(start: map<Id, ConnId>, seen: seq<ConnTarget>)
    | Sending(start: map<Id, ConnId>, finish: map<Id, ConnId>, targets: seq<ConnTarget>, next: nat)
    | Addressing
    | BroadcastDone(start: map<Id, ConnId>, finish: map<Id, ConnId>, targets: seq<ConnTarget>)
    | UnicastDone(target: Option<ConnTarget>)
    | NoRoom

  /** One call of Router.route; raw is the buffer that was decoded. */
  datatype Route = Route(raw: Frame, header: PacketHeader, payload: seq<Byte>, room: Id, user: Id, phase: RoutePhase)

  /** unregister runs in a handler that ends, or in a retry task that gave up. */
  datatype Owner = ByHandler(conn: ConnId) | ByRetry(route: RouteId, conn: ConnId)

  /** Holding and Removed hold a read guard on the room. */
  datatype UnregPhase = Waiting | Holding | Removed | CleaningUp | Done

  datatype Unreg = Unreg(room: Id, user: Id, phase: UnregPhase)

  /** What became of one dispatch of a route call to a connection. */
  datatype Fate = Accepted | DroppedFull | RetryPending(packet: Frame, user: Id) | RetryFailed

  /** The linearisation points of register and unregister. */
  datatype Event = Inserted(room: Id, user: Id, conn: ConnId) | Erased(room: Id, user: Id, owner: Owner)

  datatype State = State(
    rooms: Rooms<Id, ConnId>,
    conns: map<ConnId, Conn>,
    chans: map<ConnId, Chan<Item>>,
    routes: map<RouteId, Route>,
    unregs: map<Owner, Unreg>,
    fates: map<(RouteId, ConnId), Fate>,
    log: seq<Event>,
    active: int,
    senders: map<ConnId, int>)

  /** Steps of the task that serves a connection. */
  datatype HandlerStep =
    | Connect(conn: ConnId, room: Id, user: Id)
    | EnterRoom(conn: ConnId)
    | InsertSelf(conn: ConnId)
    | CountIn(conn: ConnId)
    | ReceiveNone(conn: ConnId)
    | Leave(conn: ConnId)
    | StartUnregister(conn: ConnId)

  /** Steps of an unregistration, by whichever task runs it. */
  datatype UnregStep =
    | FindUnregRoom(owner: Owner)
    | Erase(owner: Owner)
    | TestEmpty(owner: Owner)
    | CleanUp(owner: Owner)

  /** Steps by which a route call finds its targets. */
  datatype ScanStep =
    | FindRoom(route: RouteId)
    | Visit(route: RouteId, user: Id)
    | EndScan(route: RouteId)
    | FinishBroadcast(route: RouteId)

  /** Steps by which a route call dispatches to a target. */
  datatype SendStep =
    | SendNext(route: RouteId)
    | SendAddressed(route: RouteId)

  /** Steps of retry tasks and of receivers. */
  datatype QueueStep =
    | RetrySucceed(route: RouteId, conn: ConnId)
    | RetryGiveUp(route: RouteId, conn: ConnId)
    | ReceiveItem(conn: ConnId)

  /** Arrive: the network layer reads a buffer that decodes, and spawns a route task for it. */
  datatype Step =
    | Handler(handler: HandlerStep)
    | Unregister(unregister: UnregStep)
    | Scan(scan: ScanStep)
    | Send(send: SendStep)
    | Queue(queue: QueueStep)
    | Arrive(route: RouteId, raw: Frame)

  const INIT := State(map[], map[], map[], map[], map[], map[], [], 0, map[])

  // ---- admission of a WebSocket connection ----

  datatype Rejection = RoomNotAscii | UserNotAscii | RoomTooLong | UserTooLong

  function WsReject(room: Id, user: Id): Option<Rejection> {
    if !IsAscii(room) then Some(RoomNotAscii)
    else if !IsAscii(user) then Some(UserNotAscii)
    else if |room| > ROOM_ID_LEN then Some(RoomTooLong)
    else if |user| > USER_ID_LEN then Some(UserTooLong)
    else None
  }

  // ---- guards ----

  predicate RouteHolds(rt: Route) {
    rt.phase.Scanning? || rt.phase.Sending? || rt.phase.Addressing?
  }

  predicate UnregHolds(un: Unreg) {
    un.phase.Holding? || un.phase.Removed?
  }

  predicate NoRouteReads(routes: map<RouteId, Route>, room: Id) {
    forall t :: t in routes && RouteHolds(routes[t]) ==> routes[t].room != room
  }

  predicate NoUnregReads(unregs: map<Owner, Unreg>, room: Id) {
    forall o :: o in unregs && UnregHolds(unregs[o]) ==> unregs[o].room != room
  }

  predicate NoWriter(conns: map<ConnId, Conn>, room: Id) {
    forall c :: c in conns && conns[c].phase.Entering? ==> conns[c].room != room
  }

  /** The room's guard is free for exclusive use. */
  predicate Unguarded(s: State, room: Id) {
    NoRouteReads(s.routes, room) && NoUnregReads(s.unregs, room) && NoWriter(s.conns, room)
  }

  // ---- sender clones ----

  /** What Arc::strong_count sees of a channel beside its receiver changes by so many. */
  function Count(senders: map<ConnId, int>, c: ConnId, delta: int): map<ConnId, int> {
    if c in senders then senders[c := senders[c] + delta] else senders
  }

  /** The inner map drops the sender that it holds under this key, if any. */
  function DropEntry(senders: map<ConnId, int>, rooms: Rooms<Id, ConnId>, room: Id, user: Id): map<ConnId, int> {
    if Registered(rooms, room, user) then Count(senders, rooms[room][user], -1) else senders
  }

  // ---- steps ----

  predicate Saw(seen: seq<ConnTarget>, user: Id) {
    exists i :: 0 <= i < |seen| && seen[i].user == user
  }

  predicate ConnIn(s: State, c: ConnId, phase: ConnPhase) {
    c in s.conns && c in s.chans && s.conns[c].phase == phase
  }

  predicate UnregIn(s: State, o: Owner, phase: UnregPhase) {
    o in s.unregs && s.unregs[o].phase == phase
  }

  predicate Pending(s: State, t: RouteId, c: ConnId) {
    (t, c) in s.fates && s.fates[(t, c)].RetryPending? && c in s.chans && t in s.routes
  }

  function SetConn(s: State, c: ConnId, phase: ConnPhase): State
    requires c in s.conns
  {
    s.(conns := s.conns[c := s.conns[c].(phase := phase)])
  }

  function SetRoute(s: State, t: RouteId, phase: RoutePhase): State
    requires t in s.routes
  {
    s.(routes := s.routes[t := s.routes[t].(phase := phase)])
  }

  /** A retry task drops its sender when it is done with its unregister. */
  function SetUnreg(s: State, o: Owner, phase: UnregPhase): State
    requires o in s.unregs
  {
    s.(unregs := s.unregs[o := s.unregs[o].(phase := phase)],
       senders := if o.ByRetry? && phase.Done? then Count(s.senders, o.conn, -1) else s.senders)
  }

  // handlers

  predicate HandlerEnabled(s: State, step: HandlerStep) {
    match step
    case Connect(c, room, user) => c !in s.conns && WsReject(room, user).None?
    case EnterRoom(c) => ConnIn(s, c, Opening) && Unguarded(s, s.conns[c].room)
    case InsertSelf(c) => ConnIn(s, c, Entering)
    case CountIn(c) => ConnIn(s, c, Uncounted)
    case ReceiveNone(c) => ConnIn(s, c, Serving) && s.chans[c].queue == [] && c in s.senders && s.senders[c] == 0
    case Leave(c) => ConnIn(s, c, Serving)
    case StartUnregister(c) => ConnIn(s, c, Closing)
  }

  function HandlerEffect(s: State, step: HandlerStep): State
    requires HandlerEnabled(s, step)
  {
    match step
    case Connect(c, room, user) =>
      s.(conns := s.conns[c := Conn(room, user, Opening)], chans := s.chans[c := NewChan(WS_CHANNEL_CAPACITY)],
         senders := s.senders[c := 1])
    case EnterRoom(c) => SetConn(s, c, Entering).(rooms := EnsureRoom(s.rooms, s.conns[c].room))
    case InsertSelf(c) =>
      var (room, user) := (s.conns[c].room, s.conns[c].user);
      SetConn(s, c, Uncounted).(rooms := InsertUser(s.rooms, room, user, c), log := s.log + [Inserted(room, user, c)],
                                senders := DropEntry(s.senders, s.rooms, room, user))
    case CountIn(c) => SetConn(s, c, Serving).(active := s.active + 1)
    case ReceiveNone(c) => SetConn(s, c, Closing).(active := s.active - 1)
    case Leave(c) => SetConn(s, c, Closing).(active := s.active - 1)
    case StartUnregister(c) =>
      SetConn(s, c, Left).(unregs := s.unregs[ByHandler(c) := Unreg(s.conns[c].room, s.conns[c].user, Waiting)])
  }

  // unregistrations

  predicate UnregEnabled(s: State, step: UnregStep) {
    var o := step.owner;
    match step
    case FindUnregRoom(_) => UnregIn(s, o, Waiting) && NoWriter(s.conns, s.unregs[o].room)
    case Erase(_) => UnregIn(s, o, Holding)
    case TestEmpty(_) => UnregIn(s, o, Removed)
    case CleanUp(_) => UnregIn(s, o, CleaningUp) && Unguarded(s, s.unregs[o].room)
  }

  function UnregEffect(s: State, step: UnregStep): State
    requires UnregEnabled(s, step)
  {
    var o := step.owner;
    var un := s.unregs[o];
    match step
    case FindUnregRoom(_) => SetUnreg(s, o, if un.room in s.rooms then Holding else Done)
    case Erase(_) =>
      SetUnreg(s, o, Removed).(rooms := RemoveUser(s.rooms, un.room, un.user),
                               log := s.log + [Erased(un.room, un.user, o)],
                               senders := DropEntry(s.senders, s.rooms, un.room, un.user))
    case TestEmpty(_) => SetUnreg(s, o, if Members(s.rooms, un.room) == map[] then CleaningUp else Done)
    case CleanUp(_) => SetUnreg(s, o, Done).(rooms := RemoveIfEmpty(s.rooms, un.room))
  }

  // route calls

  predicate ScanEnabled(s: State, step: ScanStep) {
    var t := step.route;
    t in s.routes &&
    var (rt, phase) := (s.routes[t], s.routes[t].phase);
    match step
    case FindRoom(_) => phase.Spawned? && NoWriter(s.conns, rt.room)
    case Visit(_, user) => phase.Scanning? && user in Members(s.rooms, rt.room) && !Saw(phase.seen, user)
    case EndScan(_) => phase.Scanning? && forall u :: u in Members(s.rooms, rt.room) ==> Saw(phase.seen, u)
    case FinishBroadcast(_) => phase.Sending? && phase.next == |phase.targets|
  }

  function ScanEffect(s: State, step: ScanStep): State
    requires ScanEnabled(s, step)
  {
    var t := step.route;
    var (rt, phase) := (s.routes[t], s.routes[t].phase);
    SetRoute(s, t,
      match step
      case FindRoom(_) =>
        if rt.room !in s.rooms then NoRoom
        else if rt.header.targetType.Broadcast? then Scanning(s.rooms[rt.room], [])
        else Addressing
      case Visit(_, user) => Scanning(phase.start, phase.seen + [Target(user, Members(s.rooms, rt.room)[user])])
      case EndScan(_) => Sending(phase.start, Members(s.rooms, rt.room), phase.seen, 0)
      case FinishBroadcast(_) => BroadcastDone(phase.start, phase.finish, phase.targets))
    .(senders := if step.Visit? then Count(s.senders, Members(s.rooms, rt.room)[step.user], 1) else s.senders)
  }

  function FateOf(packetType: PacketType, full: bool, packet: Frame, user: Id): Fate {
    if packetType.RawMotion? || !full then Accepted
    else if packetType.SystemCmd? then RetryPending(packet, user)
    else DroppedFull
  }

  /** dispatch: re-encode the packet and send it by its type's policy. A retry task gets a sender of its own. */
  function Dispatch(s: State, t: RouteId, target: ConnTarget): State
    requires t in s.routes && target.conn in s.chans
  {
    var (rt, c) := (s.routes[t], target.conn);
    var packet := Encode(rt.header, rt.payload);
    var op := Policy(rt.header.packetType, Item(packet, t));
    var fate := FateOf(rt.header.packetType, s.chans[c].Full(), packet, target.user);
    s.(chans := s.chans[c := Apply(s.chans[c], op)],
       fates := s.fates[(t, c) := fate],
       senders := if fate.RetryPending? then Count(s.senders, c, 1) else s.senders)
  }

  predicate SendEnabled(s: State, step: SendStep) {
    var t := step.route;
    t in s.routes &&
    match step
    case SendNext(_) => s.routes[t].phase.Sending? && s.routes[t].phase.next < |s.routes[t].phase.targets|
    case SendAddressed(_) => s.routes[t].phase.Addressing?
  }

  /** The target that the step dispatches to; a unicast user may be missing. */
  function SendTarget(s: State, step: SendStep): Option<ConnTarget>
    requires SendEnabled(s, step)
  {
    var rt := s.routes[step.route];
    match step
    case SendNext(_) => Some(rt.phase.targets[rt.phase.next])
    case SendAddressed(_) =>
      if rt.user in Members(s.rooms, rt.room) then Some(Target(rt.user, Members(s.rooms, rt.room)[rt.user])) else None
  }

  /** A broadcast drops the snapshot's sender when it has dispatched to it. */
  function SendEffect(s: State, step: SendStep): State
    requires SendEnabled(s, step)
  {
    var (t, phase, target) := (step.route, s.routes[step.route].phase, SendTarget(s, step));
    var s1 := if target.Some? && target.value.conn in s.chans then Dispatch(s, t, target.value) else s;
    match step
    case SendNext(_) =>
      SetRoute(s1, t, phase.(next := phase.next + 1)).(senders := Count(s1.senders, target.value.conn, -1))
    case SendAddressed(_) => SetRoute(s1, t, UnicastDone(target))
  }

  // retries and receipts

  predicate QueueEnabled(s: State, step: QueueStep) {
    match step
    case RetrySucceed(t, c) => Pending(s, t, c) && !s.chans[c].Full()
    case RetryGiveUp(t, c) => Pending(s, t, c) && s.chans[c].Full()
    case ReceiveItem(c) => ConnIn(s, c, Serving) && s.chans[c].queue != []
  }

  function QueueEffect(s: State, step: QueueStep): State
    requires QueueEnabled(s, step)
  {
    match step
    case RetrySucceed(t, c) =>
      s.(chans := s.chans[c := Apply(s.chans[c], TrySendOp(Item(s.fates[(t, c)].packet, t)))],
         fates := s.fates[(t, c) := Accepted],
         senders := Count(s.senders, c, -1))
    case RetryGiveUp(t, c) =>
      s.(fates := s.fates[(t, c) := RetryFailed],
         unregs := s.unregs[ByRetry(t, c) := Unreg(s.routes[t].room, s.fates[(t, c)].user, Waiting)])
    case ReceiveItem(c) => s.(chans := s.chans[c := Apply(s.chans[c], ReceiveOp)])
  }

  // the network layer

  function NewRoute(raw: Frame): Route
    requires Decode(raw).Ok?
  {
    var (h, p) := Decode(raw).value;
    Route(raw, h, p, h.RoomIdStr(), h.UserIdStr(), Spawned)
  }

  // ---- runs ----

  predicate Enabled(s: State, step: Step) {
    match step
    case Handler(handler) => HandlerEnabled(s, handler)
    case Unregister(unregister) => UnregEnabled(s, unregister)
    case Scan(scan) => ScanEnabled(s, scan)
    case Send(send) => SendEnabled(s, send)
    case Queue(queue) => QueueEnabled(s, queue)
    case Arrive(t, raw) => t !in s.routes && Decode(raw).Ok?
  }

  /** One step; a step that is not enabled changes nothing. */
  function Next(s: State, step: Step): State {
    if !Enabled(s, step) then s
    else
      match step
      case Handler(handler) => HandlerEffect(s, handler)
      case Unregister(unregister) => UnregEffect(s, unregister)
      case Scan(scan) => ScanEffect(s, scan)
      case Send(send) => SendEffect(s, send)
      case Queue(queue) => QueueEffect(s, queue)
      case Arrive(t, raw) => s.(routes := s.routes[t := NewRoute(raw)])
  }

  function Exec(s: State, steps: seq<Step>): State {
    if steps == [] then s else Next(Exec(s, steps[..|steps| - 1]), steps[|steps| - 1])
  }

  ghost predicate Reachable(s: State) {
    exists steps :: Exec(INIT, steps) == s
  }
}
