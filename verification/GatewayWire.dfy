/**
 * The gateway's laws on the bytes of the packets, as section 4 of doc/rust_gateway_prd_v3.md lays
 * them out: byte 1 is the packet type, byte 2 the target type, 4 to 9 the room, 10 to 17 the user.
 */
module GatewayWire {
  import opened GatewayProtocol
  import opened Channel
  import opened Gateway
  import opened GatewayKeys
  import opened GatewayDelivery
  import opened GatewayRuns
  import opened GatewayEvictions
  import opened GatewayService

  /** What the bytes of an accepted buffer mean. */
  lemma WireCodes(raw: Frame)
    requires Decode(raw).Ok?
    ensures |raw| >= 24 && raw[0] == 2 && raw[3] == 0
    ensures
      var h := Decode(raw).value.0;
      && (raw[1] == 1 <==> h.packetType == RawMotion) && (raw[1] == 2 <==> h.packetType == AiEvent)
      && (raw[1] == 3 <==> h.packetType == SystemCmd) && (raw[1] == 4 <==> h.packetType == Heartbeat)
      && (raw[2] == 1 <==> h.targetType == Broadcast) && (raw[2] == 2 <==> h.targetType == Unicast)
      && h.RoomIdStr() == AsciiFieldStr(raw[4..10]) && h.UserIdStr() == AsciiFieldStr(raw[10..18])
  {
  }

  lemma CallsOnTheWire(s: State, t: RouteId)
    requires Reachable(s) && t in s.routes
    ensures Authentic(s.routes[t])
  {
    var steps :| Exec(INIT, steps) == s;
    CallsStemFromArrivals(steps, t);
  }

  // ---- policy ----

  /** What a full queue does with a packet, by byte 1. */
  lemma PolicyOnTheWire(s: State, step: SendStep)
    requires Reachable(s) && SendEnabled(s, step) && SendTarget(s, step).Some?
    requires SendTarget(s, step).value.conn in s.chans && |s.chans[SendTarget(s, step).value.conn].queue| == 64
    ensures
      var (t, target, s') := (step.route, SendTarget(s, step).value, SendEffect(s, step));
      var raw := s.routes[t].raw;
      && |raw| >= 24 && target.conn in s'.chans && (t, target.conn) in s'.fates
      && var (before, after) := (s.chans[target.conn].queue, s'.chans[target.conn].queue);
         var fate := s'.fates[(t, target.conn)];
         && (raw[1] == 1 <==> fate == Accepted) && (raw[1] == 1 <==> after == before[1..] + [Item(raw, t)])
         && (raw[1] == 3 <==> fate == RetryPending(raw, target.user))
         && (raw[1] == 2 || raw[1] == 4 <==> fate == DroppedFull)
         && (raw[1] != 1 <==> after == before)
  {
    var t := step.route;
    CallsOnTheWire(s, t);
    WireCodes(s.routes[t].raw);
    DispatchOutcome(s, step);
    NewcomerChanges(s, step);
  }

  /** The packet was not in the queue before, so taking it in changes the queue. */
  lemma NewcomerChanges(s: State, step: SendStep)
    requires Reachable(s) && SendEnabled(s, step) && SendTarget(s, step).Some?
    requires SendTarget(s, step).value.conn in s.chans && s.chans[SendTarget(s, step).value.conn].queue != []
    ensures
      var t := step.route;
      var queue := s.chans[SendTarget(s, step).value.conn].queue;
      queue[1..] + [Item(s.routes[t].raw, t)] != queue
  {
    var (t, c) := (step.route, SendTarget(s, step).value.conn);
    var ch := s.chans[c];
    ReachableDelivered(s);
    SendTargetIsNew(s, step);
    assert GoodChan(ch, c, s.conns[c], s.routes, s.fates);
    if ch.queue[1..] + [Item(s.routes[t].raw, t)] == ch.queue {
      var n := |ch.queue| - 1;
      assert (ch.queue[1..] + [Item(s.routes[t].raw, t)])[n].route == t;
      assert ch.accepted[ch.Head() + n].route == t;
      assert HasItemOf(ch, t);
    }
  }

  // ---- evictions ----

  /** The step dispatches a packet with byte 1 equal to 1 to a queue of 64 with item i in front. */
  predicate EvictsOnWire(s: State, step: Step, c: ConnId, i: int) {
    && step.Send? && SendEnabled(s, step.send) && c in s.chans
    && SendTarget(s, step.send).Some? && SendTarget(s, step.send).value.conn == c
    && var raw := s.routes[step.send.route].raw;
       |raw| >= 24 && raw[1] == 1 && |s.chans[c].queue| == 64 && i == |s.chans[c].accepted| - 64
  }

  lemma EvictsExactlyOnTheWire(s: State, step: Step, c: ConnId, i: int)
    requires Reachable(s)
    ensures !Evicted(s, c, i) && Evicted(Next(s, step), c, i) <==> EvictsOnWire(s, step, c, i)
  {
    EvictsExactly(s, step, c, i);
    if step.Send? && SendEnabled(s, step.send) {
      CallsOnTheWire(s, step.send.route);
      WireCodes(s.routes[step.send.route].raw);
    }
  }

  // ---- relay and service ----

  /**
   * Whatever a connection's channel ever took in is a received buffer with the room's name in bytes
   * 4 to 9 and, if byte 2 is 2, the user's in 10 to 17.
   */
  lemma RelayOnTheWire(steps: seq<Step>, c: ConnId, i: int)
    requires c in Exec(INIT, steps).chans && 0 <= i < |Exec(INIT, steps).chans[c].accepted|
    ensures
      var s := Exec(INIT, steps);
      var item := s.chans[c].accepted[i];
      && c in s.conns && Arrived(steps, item.route, item.packet) && |item.packet| >= 24
      && AsciiFieldStr(item.packet[4..10]) == s.conns[c].room
      && (item.packet[2] == 1 || (item.packet[2] == 2 && AsciiFieldStr(item.packet[10..18]) == s.conns[c].user))
  {
    TransparentRelay(steps, c, i);
    WireCodes(Exec(INIT, steps).chans[c].accepted[i].packet);
  }

  /** A channel that took in no packet with byte 1 equal to 1 loses nothing, and keeps the order. */
  lemma LosslessOnTheWire(s: State, c: ConnId)
    requires Reachable(s) && c in s.chans
    requires forall i :: 0 <= i < |s.chans[c].accepted| ==>
      |s.chans[c].accepted[i].packet| >= 24 && s.chans[c].accepted[i].packet[1] != 1
    ensures
      var ch := s.chans[c];
      (forall i :: i in ch.received ==> i < |ch.accepted|) && HandedOut(ch) + ch.queue == ch.accepted
  {
    ReachableDelivered(s);
    var ch := s.chans[c];
    assert GoodChan(ch, c, s.conns[c], s.routes, s.fates);
    forall i | 0 <= i < |ch.accepted|
      ensures ch.accepted[i].route in s.routes && !s.routes[ch.accepted[i].route].header.packetType.RawMotion?
    {
      assert GoodItem(ch.accepted[i], s.routes, s.conns[c]);
      CallsOnTheWire(s, ch.accepted[i].route);
      WireCodes(ch.accepted[i].packet);
    }
    LosslessWithoutRawMotion(s, c);
  }

  /**
   * A finished call has dispatched to every connection that was registered in the room named by
   * bytes 4 to 9 in every state since the buffer arrived, if byte 2 is 1, or if it is 2 and bytes
   * 10 to 17 name the user.
   */
  lemma ServiceOnTheWire(steps: seq<Step>, a: int, t: RouteId, raw: Frame, room: Id, user: Id, c: ConnId)
    requires 0 <= a < |steps| && steps[a] == Arrive(t, raw) && t !in Exec(INIT, steps[..a]).routes && Decode(raw).Ok?
    requires |raw| >= 24 && AsciiFieldStr(raw[4..10]) == room
    requires raw[2] == 1 || (raw[2] == 2 && AsciiFieldStr(raw[10..18]) == user)
    requires forall k :: a < k <= |steps| ==>
      var rooms := Exec(INIT, steps[..k]).rooms; room in rooms && user in rooms[room] && rooms[room][user] == c
    requires t in Exec(INIT, steps).routes
    requires var phase := Exec(INIT, steps).routes[t].phase; phase.NoRoom? || phase.BroadcastDone? || phase.UnicastDone?
    ensures Exec(INIT, steps).routes[t].raw == raw && (t, c) in Exec(INIT, steps).fates
  {
    CallOfArrival(steps, a, t);
    CallsStemFromArrivals(steps, t);
    WireCodes(raw);
    ServesTheRegistered(steps, a, t, user, c);
  }

  /** A call keeps the buffer that it was spawned for. */
  lemma {:induction false} CallOfArrival(steps: seq<Step>, a: int, t: RouteId)
    requires ArrivesAt(steps, a, t)
    ensures t in Exec(INIT, steps).routes && Exec(INIT, steps).routes[t].raw == steps[a].raw
    decreases |steps|
  {
    var n := |steps| - 1;
    var s := Exec(INIT, steps[..n]);
    NextKeepsRoutes(s, steps[n]);
    if a < n {
      assert steps[..n][..a] == steps[..a];
      CallOfArrival(steps[..n], a, t);
      assert SameCall(s.routes[t], Next(s, steps[n]).routes[t]);
    } else {
      SpawnsCall(s, steps[n]);
    }
  }

  lemma SpawnsCall(s: State, step: Step)
    requires step.Arrive? && Enabled(s, step)
    ensures step.route in Next(s, step).routes && Next(s, step).routes[step.route].raw == step.raw
  {
  }
}
