/** What every run of the gateway promises about packets: transparency, fates, evictions and the end of a stream. */
module GatewayRuns {
  import opened GatewayProtocol
  import opened Channel
  import opened Registry
  import opened Gateway
  import opened GatewayKeys
  import opened GatewayLog
  import opened GatewaySenders
  import opened GatewayDelivery

  lemma {:induction false} ExecKeepsDelivered(steps: seq<Step>)
    ensures Delivered(Exec(INIT, steps))
    decreases |steps|
  {
    if steps == [] {
    } else {
      ExecKeepsInv(steps[..|steps| - 1]);
      ExecKeepsDelivered(steps[..|steps| - 1]);
      NextKeepsDelivered(Exec(INIT, steps[..|steps| - 1]), steps[|steps| - 1]);
    }
  }

  lemma ReachableDelivered(s: State)
    requires Reachable(s)
    ensures Books(s) && Delivered(s)
  {
    ReachableInv(s);
    var steps :| Exec(INIT, steps) == s;
    ExecKeepsDelivered(steps);
  }

  // ---- transparent relay ----

  lemma SendKeepsRoutes(s: State, step: SendStep)
    requires SendEnabled(s, step)
    ensures RoutesKept(s.routes, SendEffect(s, step).routes) && SendEffect(s, step).routes.Keys == s.routes.Keys
  {
  }

  lemma ScanKeepsRoutes(s: State, step: ScanStep)
    requires ScanEnabled(s, step)
    ensures RoutesKept(s.routes, ScanEffect(s, step).routes) && ScanEffect(s, step).routes.Keys == s.routes.Keys
  {
  }

  lemma HandlerKeepsRoutes(s: State, step: HandlerStep)
    requires HandlerEnabled(s, step)
    ensures HandlerEffect(s, step).routes == s.routes
  {
  }

  lemma UnregKeepsRoutes(s: State, step: UnregStep)
    requires UnregEnabled(s, step)
    ensures UnregEffect(s, step).routes == s.routes
  {
  }

  lemma QueueKeepsRoutes(s: State, step: QueueStep)
    requires QueueEnabled(s, step)
    ensures QueueEffect(s, step).routes == s.routes
  {
  }

  /** Route calls are never forgotten or altered; a new one is what an arriving buffer decodes to. */
  lemma NextKeepsRoutes(s: State, step: Step)
    ensures RoutesKept(s.routes, Next(s, step).routes)
    ensures forall t :: t in Next(s, step).routes && t !in s.routes ==>
              step.Arrive? && step.route == t && Decode(step.raw).Ok? && Next(s, step).routes[t] == NewRoute(step.raw)
  {
    if Enabled(s, step) {
      match step
      case Send(send) => SendKeepsRoutes(s, send);
      case Scan(scan) => ScanKeepsRoutes(s, scan);
      case Handler(handler) => HandlerKeepsRoutes(s, handler);
      case Unregister(unregister) => UnregKeepsRoutes(s, unregister);
      case Queue(queue) => QueueKeepsRoutes(s, queue);
      case Arrive(_, _) =>
    }
  }

  lemma AuthenticCall(rt: Route, rt': Route)
    requires Authentic(rt) && SameCall(rt, rt')
    ensures Authentic(rt')
  {
  }

  predicate Arrived(steps: seq<Step>, t: RouteId, raw: Frame) {
    exists k :: 0 <= k < |steps| && steps[k] == Arrive(t, raw)
  }

  /** Every route call stems from a buffer that the network layer received in this run and decoded. */
  lemma {:induction false} CallsStemFromArrivals(steps: seq<Step>, t: RouteId)
    requires t in Exec(INIT, steps).routes
    ensures Arrived(steps, t, Exec(INIT, steps).routes[t].raw) && Authentic(Exec(INIT, steps).routes[t])
    decreases |steps|
  {
    var n := |steps| - 1;
    var s := Exec(INIT, steps[..n]);
    NextKeepsRoutes(s, steps[n]);
    if t in s.routes {
      CallsStemFromArrivals(steps[..n], t);
      AuthenticCall(s.routes[t], Next(s, steps[n]).routes[t]);
      var k :| 0 <= k < n && steps[..n][k] == Arrive(t, s.routes[t].raw);
      assert steps[k] == Arrive(t, s.routes[t].raw);
    } else {
      assert steps[n] == Arrive(t, steps[n].raw);
    }
  }

  /**
   * Every packet that a connection's channel ever took in is, byte for byte, a buffer that arrived
   * and decoded, for the room the connection registered under and, if unicast, for its user.
   */
  lemma TransparentRelay(steps: seq<Step>, c: ConnId, i: int)
    requires c in Exec(INIT, steps).chans && 0 <= i < |Exec(INIT, steps).chans[c].accepted|
    ensures var s := Exec(INIT, steps);
      var item := s.chans[c].accepted[i];
      && c in s.conns && Arrived(steps, item.route, item.packet) && Decode(item.packet).Ok?
      && var header := Decode(item.packet).value.0;
         && header.RoomIdStr() == s.conns[c].room
         && (header.targetType.Unicast? ==> header.UserIdStr() == s.conns[c].user)
  {
    var s := Exec(INIT, steps);
    ExecKeepsDelivered(steps);
    var item := s.chans[c].accepted[i];
    assert GoodChan(s.chans[c], c, s.conns[c], s.routes, s.fates);
    assert GoodItem(item, s.routes, s.conns[c]);
    CallsStemFromArrivals(steps, item.route);
  }

  /** What is queued was accepted; recv handed out in order, and once each, what was not evicted. */
  lemma QueuedAndReceivedWereAccepted(s: State, c: ConnId)
    requires Reachable(s) && c in s.chans
    ensures var ch := s.chans[c];
      && |ch.queue| <= WS_CHANNEL_CAPACITY && |ch.queue| <= |ch.accepted| && ch.queue == ch.accepted[ch.Head()..]
      && (forall i, j :: 0 <= i < j < |ch.received| ==> ch.received[i] < ch.received[j])
      && (forall i :: i in ch.received ==> i < ch.Head())
      && (forall i :: 0 <= i < ch.Head() ==> (i in ch.received <==> i !in ch.evictedBy))
  {
    ReachableDelivered(s);
    assert GoodChan(s.chans[c], c, s.conns[c], s.routes, s.fates);
  }

  // ---- fates ----

  /** How many items of this route call the channel has accepted. */
  function CountOf(items: seq<Item>, t: RouteId): nat {
    if items == [] then 0 else CountOf(items[..|items| - 1], t) + if items[|items| - 1].route == t then 1 else 0
  }

  lemma {:induction false} CountAtMostOnce(items: seq<Item>, t: RouteId)
    requires forall i, j :: 0 <= i < j < |items| ==> items[i].route != items[j].route
    ensures CountOf(items, t) == if exists i :: 0 <= i < |items| && items[i].route == t then 1 else 0
    decreases |items|
  {
    if items == [] {
    } else {
      var init := items[..|items| - 1];
      CountAtMostOnce(init, t);
      if i :| 0 <= i < |init| && init[i].route == t {
        assert items[i].route == t;
      }
    }
  }

  /**
   * The one fate of each dispatch: a call has a fate for exactly the targets it has dispatched to,
   * all of them in its room; its packet was accepted once if the fate says Accepted and never
   * otherwise; full channels drop best-effort packets and delay or fail SystemCmds only.
   */
  lemma ExactFate(s: State, t: RouteId, c: ConnId)
    requires Reachable(s) && c in s.chans
    ensures (t, c) in s.fates <==> t in s.routes && Dispatched(s.routes[t], c)
    ensures CountOf(s.chans[c].accepted, t) == if IsAccepted(s.fates, t, c) then 1 else 0
    ensures (t, c) in s.fates ==>
      && c in s.conns && Addressed(s.routes[t], s.conns[c])
      && var packetType := s.routes[t].header.packetType;
         && (s.fates[(t, c)].DroppedFull? ==> packetType.AiEvent? || packetType.Heartbeat?)
         && (s.fates[(t, c)].RetryPending? || s.fates[(t, c)].RetryFailed? ==> packetType.SystemCmd?)
         && (s.fates[(t, c)].RetryFailed? ==> ByRetry(t, c) in s.unregs)
  {
    ReachableDelivered(s);
    var ch := s.chans[c];
    assert GoodChan(ch, c, s.conns[c], s.routes, s.fates);
    CountAtMostOnce(ch.accepted, t);
    assert HasItemOf(ch, t) <==> IsAccepted(s.fates, t, c);
  }

  /** A retry that failed disconnects: once its unregister has removed, the key is free. */
  lemma FailedRetryDisconnects(s: State, t: RouteId, c: ConnId)
    requires Reachable(s) && UnregEnabled(s, Erase(ByRetry(t, c)))
    ensures (t, c) in s.fates && s.fates[(t, c)].RetryFailed? && c in s.conns
    ensures !Registered(UnregEffect(s, Erase(ByRetry(t, c))).rooms, s.conns[c].room, s.conns[c].user)
  {
    ReachableInv(s);
  }

  /** What happened to the queue, and the fate, when a packet was sent to a channel of capacity 64. */
  predicate Outcome(packetType: PacketType, item: Item, user: Id, before: seq<Item>, after: seq<Item>, fate: Fate) {
    if |before| < WS_CHANNEL_CAPACITY then fate == Accepted && after == before + [item]
    else if packetType.RawMotion? then fate == Accepted && after == before[1..] + [item]
    else if packetType.SystemCmd? then fate == RetryPending(item.packet, user) && after == before
    else fate == DroppedFull && after == before
  }

  lemma SendOutcome(s: State, step: SendStep)
    requires SendEnabled(s, step) && SendTarget(s, step).Some? && SendTarget(s, step).value.conn in s.chans
    requires Transparent(s.routes[step.route])
    requires var ch := s.chans[SendTarget(s, step).value.conn]; Accounted(ch) && ch.capacity == WS_CHANNEL_CAPACITY
    ensures var (t, target, s') := (step.route, SendTarget(s, step).value, SendEffect(s, step));
      && s'.chans.Keys == s.chans.Keys && (t, target.conn) in s'.fates
      && (forall d :: d in s.chans && d != target.conn ==> s'.chans[d] == s.chans[d])
      && Outcome(s.routes[t].header.packetType, Item(s.routes[t].raw, t), target.user,
                 s.chans[target.conn].queue, s'.chans[target.conn].queue, s'.fates[(t, target.conn)])
  {
  }

  /**
   * What a dispatch does to its target and to nobody else: a channel with room takes the packet in
   * at the back; a full one takes it only if it is RawMotion, giving up its front packet.
   */
  lemma DispatchOutcome(s: State, step: SendStep)
    requires Reachable(s) && SendEnabled(s, step) && SendTarget(s, step).Some?
    ensures var (t, target, s') := (step.route, SendTarget(s, step).value, SendEffect(s, step));
      && target.conn in s.chans && s'.chans.Keys == s.chans.Keys && (t, target.conn) in s'.fates
      && (forall d :: d in s.chans && d != target.conn ==> s'.chans[d] == s.chans[d])
      && Outcome(s.routes[t].header.packetType, Item(s.routes[t].raw, t), target.user,
                 s.chans[target.conn].queue, s'.chans[target.conn].queue, s'.fates[(t, target.conn)])
  {
    ReachableDelivered(s);
    SendTargetIsNew(s, step);
    var c := SendTarget(s, step).value.conn;
    assert GoodChan(s.chans[c], c, s.conns[c], s.routes, s.fates);
    assert Transparent(s.routes[step.route]);
    SendOutcome(s, step);
  }

  // ---- evictions ----

  /** Which packet types the channel took in. */
  ghost predicate NoMotion(s: State, c: ConnId)
    requires c in s.chans
  {
    forall i :: 0 <= i < |s.chans[c].accepted| ==>
      s.chans[c].accepted[i].route in s.routes && !s.routes[s.chans[c].accepted[i].route].header.packetType.RawMotion?
  }

  /** An evicted packet gave way to the RawMotion packet accepted exactly one channel-length later. */
  lemma EvictedByRawMotion(s: State, c: ConnId, i: nat)
    requires Reachable(s) && c in s.chans && i in s.chans[c].evictedBy
    ensures var ch := s.chans[c];
      var j := i + WS_CHANNEL_CAPACITY;
      && ch.evictedBy[i] == j < |ch.accepted| && ch.accepted[j].route in s.routes
      && s.routes[ch.accepted[j].route].header.packetType.RawMotion?
  {
    ReachableDelivered(s);
    assert GoodChan(s.chans[c], c, s.conns[c], s.routes, s.fates);
  }

  /** A channel that takes in no RawMotion loses nothing: received, then queued, is what was accepted. */
  lemma LosslessWithoutRawMotion(s: State, c: ConnId)
    requires Reachable(s) && c in s.chans && NoMotion(s, c)
    ensures var ch := s.chans[c];
      (forall i :: i in ch.received ==> i < |ch.accepted|) && HandedOut(ch) + ch.queue == ch.accepted
  {
    ReachableDelivered(s);
    var ch := s.chans[c];
    assert GoodChan(ch, c, s.conns[c], s.routes, s.fates);
    assert ch.evictedBy == map[] by {
      if i :| i in ch.evictedBy {
        EvictedByRawMotion(s, c, i);
      }
    }
    NoEvictionIsFifo(ch);
  }

  // ---- the end of a stream ----

  ghost predicate Closed(s: State, c: ConnId) {
    NoSender(s, c) && c in s.conns && c in s.chans
  }

  ghost predicate StaysClosed(s: State, s': State, c: ConnId) {
    Closed(s', c) && c in s.chans && s'.chans[c].accepted == s.chans[c].accepted
  }

  lemma HandlerRevivesNone(s: State, step: HandlerStep, c: ConnId, h: Holder)
    requires Closed(s, c) && HandlerEnabled(s, step)
    ensures !Holds(HandlerEffect(s, step), h, c)
  {
    assert !Holds(s, h, c) && !Holds(s, InHandler, c);
  }

  lemma HandlerKeepsClosed(s: State, step: HandlerStep, c: ConnId)
    requires Closed(s, c) && HandlerEnabled(s, step)
    ensures StaysClosed(s, HandlerEffect(s, step), c)
  {
    forall h ensures !Holds(HandlerEffect(s, step), h, c) {
      HandlerRevivesNone(s, step, c, h);
    }
  }

  lemma UnregKeepsClosed(s: State, step: UnregStep, c: ConnId)
    requires Closed(s, c) && UnregEnabled(s, step)
    ensures StaysClosed(s, UnregEffect(s, step), c)
  {
    forall h ensures !Holds(UnregEffect(s, step), h, c) {
      assert !Holds(s, h, c);
    }
  }

  lemma ScanKeepsClosed(s: State, step: ScanStep, c: ConnId)
    requires Closed(s, c) && ScanEnabled(s, step)
    ensures StaysClosed(s, ScanEffect(s, step), c)
  {
    if step.Visit? {
      assert !Holds(s, InEntry(s.routes[step.route].room, step.user), c);
    }
    forall h ensures !Holds(ScanEffect(s, step), h, c) {
      assert !Holds(s, h, c);
    }
  }

  lemma SendTargetNotClosed(s: State, step: SendStep, c: ConnId)
    requires NoSender(s, c) && SendEnabled(s, step)
    ensures SendTarget(s, step).Some? ==> SendTarget(s, step).value.conn != c
  {
    var rt := s.routes[step.route];
    if step.SendNext? {
      assert !Holds(s, InSnapshot(step.route, rt.phase.next), c);
    } else {
      assert !Holds(s, InEntry(rt.room, rt.user), c);
    }
  }

  lemma SendRevivesNone(s: State, step: SendStep, c: ConnId, h: Holder)
    requires Closed(s, c) && SendEnabled(s, step)
    requires SendTarget(s, step).Some? ==> SendTarget(s, step).value.conn != c
    ensures !Holds(SendEffect(s, step), h, c)
  {
    assert !Holds(s, h, c);
  }

  lemma SendKeepsClosed(s: State, step: SendStep, c: ConnId)
    requires Closed(s, c) && SendEnabled(s, step)
    ensures StaysClosed(s, SendEffect(s, step), c)
  {
    SendTargetNotClosed(s, step, c);
    forall h ensures !Holds(SendEffect(s, step), h, c) {
      SendRevivesNone(s, step, c, h);
    }
  }

  lemma QueueKeepsClosed(s: State, step: QueueStep, c: ConnId)
    requires Closed(s, c) && QueueEnabled(s, step)
    ensures StaysClosed(s, QueueEffect(s, step), c)
  {
    if !step.ReceiveItem? {
      assert !Holds(s, InRetry(step.route), c);
    }
    forall h ensures !Holds(QueueEffect(s, step), h, c) {
      assert !Holds(s, h, c);
    }
  }

  lemma ArriveKeepsClosed(s: State, step: Step, c: ConnId)
    requires Closed(s, c) && Enabled(s, step) && step.Arrive?
    ensures StaysClosed(s, Next(s, step), c)
  {
    forall h ensures !Holds(Next(s, step), h, c) {
      assert !Holds(s, h, c);
    }
  }

  /** Once no sender of a channel is alive, nobody can make one or send to it. */
  lemma NextKeepsClosed(s: State, step: Step, c: ConnId)
    requires Closed(s, c)
    ensures StaysClosed(s, Next(s, step), c)
  {
    if Enabled(s, step) {
      match step
      case Handler(handler) => HandlerKeepsClosed(s, handler, c);
      case Unregister(unregister) => UnregKeepsClosed(s, unregister, c);
      case Scan(scan) => ScanKeepsClosed(s, scan, c);
      case Send(send) => SendKeepsClosed(s, send, c);
      case Queue(queue) => QueueKeepsClosed(s, queue, c);
      case Arrive(_, _) => ArriveKeepsClosed(s, step, c);
    }
  }

  lemma {:induction false} StaysClosedForever(s: State, more: seq<Step>, c: ConnId)
    requires Closed(s, c)
    ensures StaysClosed(s, Exec(s, more), c)
    decreases |more|
  {
    if more == [] {
    } else {
      StaysClosedForever(s, more[..|more| - 1], c);
      NextKeepsClosed(Exec(s, more[..|more| - 1]), more[|more| - 1], c);
    }
  }

  /**
   * recv, which reads the count, returns None exactly when the queue is empty and no sender exists
   * in any handler, registry entry, snapshot or retry task.
   */
  lemma NoneExactly(s: State, c: ConnId)
    requires Reachable(s)
    ensures HandlerEnabled(s, ReceiveNone(c)) <==> ConnIn(s, c, Serving) && s.chans[c].queue == [] && NoSender(s, c)
  {
    if c in s.chans {
      var _ := SendersCountedExactly(s, c);
    }
  }

  /**
   * When recv returns None, no sender exists, every packet the channel ever accepted was received
   * or evicted, and whatever anybody does afterwards, it never accepts another one.
   */
  lemma NoneIsFinal(s: State, c: ConnId, more: seq<Step>)
    requires Reachable(s) && HandlerEnabled(s, ReceiveNone(c))
    ensures NoSender(s, c)
    ensures var ch := s.chans[c];
      forall i :: 0 <= i < |ch.accepted| ==> (i in ch.received <==> i !in ch.evictedBy)
    ensures c in Exec(s, more).chans && Exec(s, more).chans[c].accepted == s.chans[c].accepted
  {
    NoneExactly(s, c);
    ReachableDelivered(s);
    assert GoodChan(s.chans[c], c, s.conns[c], s.routes, s.fates);
    assert s.chans[c].Head() == |s.chans[c].accepted|;
    StaysClosedForever(s, more, c);
  }
}
