/** Runs in which the gateway does what its documents do not expect, for every key that can be addressed. */
module GatewayFailures {
  import opened Wrappers
  import opened GatewayProtocol
  import opened Channel
  import opened Registry
  import opened Backpressure
  import opened Gateway
  import opened GatewayLog
  import opened GatewayLatest
  import opened GatewayEvictions

  lemma ReachableNext(s: State, step: Step)
    requires Reachable(s)
    ensures Reachable(Next(s, step))
  {
    var steps :| Exec(INIT, steps) == s;
    assert (steps + [step])[..|steps|] == steps;
    assert Exec(INIT, steps + [step]) == Next(s, step);
  }

  lemma ReachableInit()
    ensures Reachable(INIT)
  {
    assert Exec(INIT, []) == INIT;
  }

  function Twice(s: State, first: Step, second: Step): State {
    Next(Next(s, first), second)
  }

  lemma ReachableTwice(s: State, first: Step, second: Step)
    requires Reachable(s)
    ensures Reachable(Twice(s, first, second))
  {
    ReachableNext(s, first);
    ReachableNext(Next(s, first), second);
  }

  // ---- a connection joins ----

  /** Connection c holds the entry guard of its room, and nothing else has happened since s. */
  predicate Entered(s: State, s': State, c: ConnId, room: Id, user: Id) {
    s' == s.(rooms := EnsureRoom(s.rooms, room), conns := s.conns[c := Conn(room, user, Entering)],
             chans := s.chans[c := NewChan(WS_CHANNEL_CAPACITY)], senders := s.senders[c := 1])
  }

  /** Connection c has joined, and nothing else has happened since s. */
  predicate Joined(s: State, s': State, c: ConnId, room: Id, user: Id) {
    s' == s.(rooms := InsertUser(EnsureRoom(s.rooms, room), room, user, c),
             conns := s.conns[c := Conn(room, user, Serving)],
             chans := s.chans[c := NewChan(WS_CHANNEL_CAPACITY)],
             log := s.log + [Inserted(room, user, c)], active := s.active + 1,
             senders := DropEntry(s.senders[c := 1], s.rooms, room, user))
  }

  lemma EnterEffect(s: State, c: ConnId, room: Id, user: Id)
    requires c !in s.conns && WsReject(room, user).None? && Unguarded(s, room)
    ensures Entered(s, Twice(s, Handler(Connect(c, room, user)), Handler(EnterRoom(c))), c, room, user)
  {
    var s1 := HandlerEffect(s, Connect(c, room, user));
    assert HandlerEnabled(s1, EnterRoom(c));
    assert s1.conns[c := Conn(room, user, Entering)] == s.conns[c := Conn(room, user, Entering)];
  }

  lemma JoinEffect(s: State, s1: State, c: ConnId, room: Id, user: Id)
    requires Entered(s, s1, c, room, user)
    ensures Joined(s, Twice(s1, Handler(InsertSelf(c)), Handler(CountIn(c))), c, room, user)
  {
    assert HandlerEnabled(s1, InsertSelf(c));
    var s2 := HandlerEffect(s1, InsertSelf(c));
    assert HandlerEnabled(s2, CountIn(c));
    assert HandlerEffect(s2, CountIn(c)).conns == s.conns[c := Conn(room, user, Serving)];
  }

  lemma Joins(s: State, c: ConnId, room: Id, user: Id) returns (s': State)
    requires Reachable(s) && c !in s.conns && WsReject(room, user).None? && Unguarded(s, room)
    ensures Reachable(s') && Joined(s, s', c, room, user)
  {
    var (connect, enter) := (Handler(Connect(c, room, user)), Handler(EnterRoom(c)));
    var s1 := Twice(s, connect, enter);
    EnterEffect(s, c, room, user);
    ReachableTwice(s, connect, enter);
    s' := Twice(s1, Handler(InsertSelf(c)), Handler(CountIn(c)));
    JoinEffect(s, s1, c, room, user);
    ReachableTwice(s1, Handler(InsertSelf(c)), Handler(CountIn(c)));
  }

  // ---- the last connection does not win ----

  /** The connection that registered last under its key serves on, and yet this unregister has just removed it. */
  ghost predicate LosesTo(s: State, c: ConnId, o: Owner) {
    && ConnIn(s, c, Serving) && Latest(s, c) && !Present(s, c)
    && s.log != [] && s.log[|s.log| - 1] == Erased(s.conns[c].room, s.conns[c].user, o)
  }

  /** Removing under the key takes the newest connection's registration away. */
  lemma EraseDisplaces(s: State, o: Owner, c: ConnId, room: Id, user: Id)
    requires UnregIn(s, o, Waiting) && s.unregs[o].room == room && s.unregs[o].user == user && o != ByHandler(c)
    requires ByHandler(c) !in s.unregs && NoWriter(s.conns, room)
    requires room in s.rooms && ConnIn(s, c, Serving) && s.conns[c].room == room && s.conns[c].user == user
    requires s.log != [] && s.log[|s.log| - 1] == Inserted(room, user, c)
    ensures LosesTo(Twice(s, Unregister(FindUnregRoom(o)), Unregister(Erase(o))), c, o)
  {
    assert UnregEnabled(s, FindUnregRoom(o));
    var s1 := UnregEffect(s, FindUnregRoom(o));
    assert UnregEnabled(s1, Erase(o));
    assert LatestAt(UnregEffect(s1, Erase(o)).log, |s.log| - 1, c, room, user);
  }

  lemma NoticesClosure(s: State, c: ConnId)
    requires ConnIn(s, c, Serving) && s.chans[c].queue == [] && c in s.senders && s.senders[c] == 0
    ensures Twice(s, Handler(ReceiveNone(c)), Handler(StartUnregister(c))) ==
      s.(conns := s.conns[c := s.conns[c].(phase := Left)], active := s.active - 1,
         unregs := s.unregs[ByHandler(c) := Unreg(s.conns[c].room, s.conns[c].user, Waiting)])
  {
    var s1 := HandlerEffect(s, ReceiveNone(c));
    assert HandlerEnabled(s1, StartUnregister(c));
    assert s1.conns[c := s.conns[c].(phase := Left)] == s.conns[c := s.conns[c].(phase := Left)];
  }

  /** A displaced handler that notices its closure removes its replacement, under every admissible key. */
  lemma DisplacedHandlerRemovesReplacement(room: Id, user: Id)
    requires WsReject(room, user).None?
    ensures exists s :: Reachable(s) && LosesTo(s, 1, ByHandler(0))
  {
    ReachableInit();
    var s0 := Joins(INIT, 0, room, user);
    var s1 := Joins(s0, 1, room, user);
    NoticesClosure(s1, 0);
    ReachableTwice(s1, Handler(ReceiveNone(0)), Handler(StartUnregister(0)));
    var s2 := Twice(s1, Handler(ReceiveNone(0)), Handler(StartUnregister(0)));
    EraseDisplaces(s2, ByHandler(0), 1, room, user);
    ReachableTwice(s2, Unregister(FindUnregRoom(ByHandler(0))), Unregister(Erase(ByHandler(0))));
  }

  // ---- a connection is flooded ----

  function HeaderFor(packetType: PacketType, room: Id, user: Id): PacketHeader
    requires WsReject(room, user).None?
  {
    NewHeader(packetType, Unicast, room, user, 0, 0).value
  }

  /** A unicast packet without payload. */
  function FrameFor(packetType: PacketType, room: Id, user: Id): Frame
    requires WsReject(room, user).None?
  {
    Encode(HeaderFor(packetType, room, user), [])
  }

  /** Admitted, and without NUL: what some unicast packet can name. */
  predicate Nameable(room: Id, user: Id) {
    WsReject(room, user).None? && 0 !in room && 0 !in user
  }

  lemma FrameDecodes(packetType: PacketType, room: Id, user: Id)
    requires Nameable(room, user)
    ensures var h := HeaderFor(packetType, room, user);
      && Decode(FrameFor(packetType, room, user)) == Ok((h, []))
      && h.packetType == packetType && h.targetType == Unicast && h.RoomIdStr() == room && h.UserIdStr() == user
  {
    NewEncodeDecode(packetType, Unicast, room, user, 0, 0, []);
    DecodeOfEncode(HeaderFor(packetType, room, user), []);
  }

  /** Connection 0 alone is registered, and the calls 0 up to n-1 have been made and are done. */
  ghost predicate Alone(s: State, room: Id, user: Id, n: nat) {
    && s.rooms == map[room := map[user := 0]] && s.conns == map[0 := Conn(room, user, Serving)]
    && 0 in s.chans && s.unregs == map[]
    && (forall t :: t in s.routes <==> 0 <= t < n)
    && (forall t :: t in s.routes ==> s.routes[t].phase.UnicastDone?)
  }

  ghost predicate Sent(s: State, s': State, n: nat, packetType: PacketType, room: Id, user: Id)
    requires WsReject(room, user).None? && 0 in s.chans
  {
    var frame := FrameFor(packetType, room, user);
    && s'.chans == s.chans[0 := Apply(s.chans[0], Policy(packetType, Item(frame, n)))]
    && s'.fates == s.fates[(n, 0) := FateOf(packetType, s.chans[0].Full(), frame, user)]
    && n in s'.routes && s'.routes == s.routes[n := s'.routes[n]]
    && s'.routes[n].header.packetType == packetType && s'.routes[n].room == room
    && s'.log == s.log
  }

  lemma FindRoomEffect(s: State, s1: State, t: RouteId, rt: Route)
    requires s1 == s.(routes := s.routes[t := rt]) && NoWriter(s.conns, rt.room)
    requires rt.phase.Spawned? && rt.room in s.rooms && rt.header.targetType.Unicast?
    ensures Next(s1, Scan(FindRoom(t))) == s.(routes := s.routes[t := rt.(phase := Addressing)])
  {
    assert ScanEnabled(s1, FindRoom(t));
    assert s1.routes[t := rt.(phase := Addressing)] == s.routes[t := rt.(phase := Addressing)];
  }

  lemma ArriveEffect(s: State, n: nat, packetType: PacketType, room: Id, user: Id)
    requires Nameable(room, user) && Alone(s, room, user, n)
    ensures var frame := FrameFor(packetType, room, user);
      && Decode(frame).Ok?
      && Twice(s, Arrive(n, frame), Scan(FindRoom(n)))
         == s.(routes := s.routes[n := NewRoute(frame).(phase := Addressing)])
  {
    FrameDecodes(packetType, room, user);
    var frame := FrameFor(packetType, room, user);
    FindRoomEffect(s, Next(s, Arrive(n, frame)), n, NewRoute(frame));
  }

  lemma SendEffectAlone(s: State, s1: State, n: nat, packetType: PacketType, room: Id, user: Id)
    requires Nameable(room, user) && Alone(s, room, user, n) && Decode(FrameFor(packetType, room, user)).Ok?
    requires s1 == s.(routes := s.routes[n := NewRoute(FrameFor(packetType, room, user)).(phase := Addressing)])
    ensures var s' := Next(s1, Send(SendAddressed(n)));
      Alone(s', room, user, n + 1) && Sent(s, s', n, packetType, room, user)
  {
    FrameDecodes(packetType, room, user);
    assert SendEnabled(s1, SendAddressed(n));
    assert SendTarget(s1, SendAddressed(n)) == Some(Target(user, 0));
  }

  lemma Delivers(s: State, n: nat, packetType: PacketType, room: Id, user: Id) returns (s': State)
    requires Reachable(s) && Nameable(room, user) && Alone(s, room, user, n)
    ensures Reachable(s') && Alone(s', room, user, n + 1) && Sent(s, s', n, packetType, room, user)
  {
    var frame := FrameFor(packetType, room, user);
    var s1 := Twice(s, Arrive(n, frame), Scan(FindRoom(n)));
    ReachableTwice(s, Arrive(n, frame), Scan(FindRoom(n)));
    ArriveEffect(s, n, packetType, room, user);
    s' := Next(s1, Send(SendAddressed(n)));
    ReachableNext(s1, Send(SendAddressed(n)));
    SendEffectAlone(s, s1, n, packetType, room, user);
  }

  /** The queue holds the n items sent so far, of which the first is a SystemCmd. */
  predicate Filled(s: State, n: nat) {
    && 0 in s.chans && 0 in s.routes && s.routes[0].header.packetType.SystemCmd?
    && var ch := s.chans[0];
       ch.capacity == WS_CHANNEL_CAPACITY && |ch.queue| == |ch.accepted| == n > 0 && ch.accepted[0].route == 0
  }

  /** A SystemCmd, then RawMotion until the queue is full. */
  lemma Floods(room: Id, user: Id) returns (s: State)
    requires Nameable(room, user)
    ensures Reachable(s) && Alone(s, room, user, WS_CHANNEL_CAPACITY) && Filled(s, WS_CHANNEL_CAPACITY)
  {
    ReachableInit();
    s := Joins(INIT, 0, room, user);
    s := Delivers(s, 0, SystemCmd, room, user);
    for n := 1 to WS_CHANNEL_CAPACITY
      invariant Reachable(s) && Alone(s, room, user, n) && Filled(s, n)
    {
      s := Delivers(s, n, RawMotion, room, user);
    }
  }

  // ---- an accepted SystemCmd is lost ----

  ghost predicate LostSystemCmd(s: State, c: ConnId, i: int) {
    && Evicted(s, c, i) && 0 <= i < |s.chans[c].accepted|
    && s.chans[c].accepted[i].route in s.routes
    && s.routes[s.chans[c].accepted[i].route].header.packetType.SystemCmd?
  }

  /** The 64th RawMotion packet after an accepted SystemCmd evicts it, on every connection that unicast reaches. */
  lemma SystemCmdIsEvicted(room: Id, user: Id)
    requires Nameable(room, user)
    ensures exists s :: Reachable(s) && LostSystemCmd(s, 0, 0)
  {
    var s := Floods(room, user);
    var s' := Delivers(s, WS_CHANNEL_CAPACITY, RawMotion, room, user);
    assert LostSystemCmd(s', 0, 0);
  }

  // ---- a failed retry removes another connection ----

  lemma GiveUpEffect(s: State, t: RouteId, c: ConnId)
    requires QueueEnabled(s, RetryGiveUp(t, c))
    ensures var s' := Next(s, Queue(RetryGiveUp(t, c)));
      s' == s.(fates := s'.fates,
               unregs := s.unregs[ByRetry(t, c) := Unreg(s.routes[t].room, s.fates[(t, c)].user, Waiting)])
  {
  }

  /**
   * A SystemCmd finds the queue full; before its retry gives up, a newer connection takes the key,
   * and that is the one the retry disconnects.
   */
  lemma FailedRetryRemovesReplacement(room: Id, user: Id)
    requires Nameable(room, user)
    ensures exists s, t :: Reachable(s) && LosesTo(s, 1, ByRetry(t, 0))
  {
    var t := WS_CHANNEL_CAPACITY;
    var s := Floods(room, user);
    var s1 := Delivers(s, t, SystemCmd, room, user);
    var s2 := Joins(s1, 1, room, user);
    assert QueueEnabled(s2, RetryGiveUp(t, 0));
    GiveUpEffect(s2, t, 0);
    var s3 := Next(s2, Queue(RetryGiveUp(t, 0)));
    ReachableNext(s2, Queue(RetryGiveUp(t, 0)));
    EraseDisplaces(s3, ByRetry(t, 0), 1, room, user);
    ReachableTwice(s3, Unregister(FindUnregRoom(ByRetry(t, 0))), Unregister(Erase(ByRetry(t, 0))));
  }
}
