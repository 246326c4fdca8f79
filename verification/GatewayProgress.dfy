/**
 * The gateway never gets stuck: whatever a task is in the middle of, it or a task it waits for in
 * the same room can go on, without any help from outside.
 */
module GatewayProgress {
  import opened GatewayProtocol
  import opened Registry
  import opened Gateway
  import opened GatewayKeys
  import opened GatewayLog
  import opened GatewayFates

  /**
   * A step of a task in the middle of something that concerns the room: none by which something
   * new arrives, a packet is received or a handler leaves of its own accord.
   */
  predicate Works(s: State, step: Step, room: Id) {
    && Enabled(s, step)
    && match step
       case Handler(handler) =>
         && (handler.EnterRoom? || handler.InsertSelf? || handler.CountIn? || handler.StartUnregister?)
         && s.conns[handler.conn].room == room
       case Unregister(unreg) => s.unregs[unreg.owner].room == room
       case Scan(scan) => s.routes[scan.route].room == room
       case Send(send) => s.routes[send.route].room == room
       case _ => false
  }

  ghost predicate CanGoOn(s: State, room: Id) {
    exists step :: Works(s, step, room)
  }

  predicate HandlerBusy(s: State, c: ConnId) {
    c in s.conns && !s.conns[c].phase.Serving? && !s.conns[c].phase.Left?
  }

  predicate UnregBusy(s: State, o: Owner) {
    o in s.unregs && !s.unregs[o].phase.Done?
  }

  predicate RouteBusy(s: State, t: RouteId) {
    t in s.routes && (s.routes[t].phase.Spawned? || RouteHolds(s.routes[t]))
  }

  // ---- whoever holds a guard can go on ----

  lemma WriterGoesOn(s: State, room: Id)
    requires Keyed(s) && !NoWriter(s.conns, room)
    ensures CanGoOn(s, room)
  {
    var c :| c in s.conns && s.conns[c].phase.Entering? && s.conns[c].room == room;
    assert Works(s, Handler(InsertSelf(c)), room);
  }

  lemma ScanGoesOn(s: State, t: RouteId)
    requires t in s.routes && s.routes[t].phase.Scanning?
    ensures CanGoOn(s, s.routes[t].room)
  {
    var rt := s.routes[t];
    if u :| u in Members(s.rooms, rt.room) && !Saw(rt.phase.seen, u) {
      assert Works(s, Scan(Visit(t, u)), s.routes[t].room);
    } else {
      assert Works(s, Scan(EndScan(t)), s.routes[t].room);
    }
  }

  lemma RouteGoesOn(s: State, t: RouteId)
    requires Keyed(s) && t in s.routes && RouteHolds(s.routes[t])
    ensures CanGoOn(s, s.routes[t].room)
  {
    var rt := s.routes[t];
    assert RouteKeyed(rt, s.conns);
    if rt.phase.Scanning? {
      ScanGoesOn(s, t);
    } else if rt.phase.Addressing? {
      assert Works(s, Send(SendAddressed(t)), s.routes[t].room);
    } else if rt.phase.next < |rt.phase.targets| {
      assert Works(s, Send(SendNext(t)), s.routes[t].room);
    } else {
      assert Works(s, Scan(FinishBroadcast(t)), s.routes[t].room);
    }
  }

  lemma UnregGoesOn(s: State, o: Owner)
    requires o in s.unregs && UnregHolds(s.unregs[o])
    ensures CanGoOn(s, s.unregs[o].room)
  {
    if s.unregs[o].phase.Holding? {
      assert Works(s, Unregister(Erase(o)), s.unregs[o].room);
    } else {
      assert Works(s, Unregister(TestEmpty(o)), s.unregs[o].room);
    }
  }

  /** A guard that is not free is held by somebody who can go on. */
  lemma GuardMoves(s: State, room: Id)
    requires Keyed(s) && !Unguarded(s, room)
    ensures CanGoOn(s, room)
  {
    if !NoWriter(s.conns, room) {
      WriterGoesOn(s, room);
    } else if !NoRouteReads(s.routes, room) {
      var t :| t in s.routes && RouteHolds(s.routes[t]) && s.routes[t].room == room;
      RouteGoesOn(s, t);
    } else {
      var o :| o in s.unregs && UnregHolds(s.unregs[o]) && s.unregs[o].room == room;
      UnregGoesOn(s, o);
    }
  }

  // ---- whoever is busy can go on, or waits for a guard ----

  lemma HandlerProgress(s: State, c: ConnId)
    requires Keyed(s) && HandlerBusy(s, c)
    ensures CanGoOn(s, s.conns[c].room)
  {
    match s.conns[c].phase
    case Opening =>
      if Unguarded(s, s.conns[c].room) {
        assert Works(s, Handler(EnterRoom(c)), s.conns[c].room);
      } else {
        GuardMoves(s, s.conns[c].room);
      }
    case Entering => assert Works(s, Handler(InsertSelf(c)), s.conns[c].room);
    case Uncounted => assert Works(s, Handler(CountIn(c)), s.conns[c].room);
    case Closing => assert Works(s, Handler(StartUnregister(c)), s.conns[c].room);
  }

  lemma UnregProgress(s: State, o: Owner)
    requires Keyed(s) && UnregBusy(s, o)
    ensures CanGoOn(s, s.unregs[o].room)
  {
    var un := s.unregs[o];
    if UnregHolds(un) {
      UnregGoesOn(s, o);
    } else if un.phase.Waiting? && NoWriter(s.conns, un.room) {
      assert Works(s, Unregister(FindUnregRoom(o)), s.unregs[o].room);
    } else if un.phase.CleaningUp? && Unguarded(s, un.room) {
      assert Works(s, Unregister(CleanUp(o)), s.unregs[o].room);
    } else {
      GuardMoves(s, un.room);
    }
  }

  lemma RouteProgress(s: State, t: RouteId)
    requires Keyed(s) && RouteBusy(s, t)
    ensures CanGoOn(s, s.routes[t].room)
  {
    if RouteHolds(s.routes[t]) {
      RouteGoesOn(s, t);
    } else if NoWriter(s.conns, s.routes[t].room) {
      assert Works(s, Scan(FindRoom(t)), s.routes[t].room);
    } else {
      WriterGoesOn(s, s.routes[t].room);
    }
  }

  /**
   * In every reachable state: if a handler, an unregistration or a route call is in the middle of
   * something, then it, or a task of the same room that it waits for, can go on.
   */
  lemma NeverStuck(s: State, room: Id)
    requires Reachable(s)
    requires
      || (exists c :: HandlerBusy(s, c) && s.conns[c].room == room)
      || (exists o :: UnregBusy(s, o) && s.unregs[o].room == room)
      || (exists t :: RouteBusy(s, t) && s.routes[t].room == room)
    ensures CanGoOn(s, room)
  {
    ReachableInv(s);
    if c :| HandlerBusy(s, c) && s.conns[c].room == room {
      HandlerProgress(s, c);
    } else if o :| UnregBusy(s, o) && s.unregs[o].room == room {
      UnregProgress(s, o);
    } else {
      var t :| RouteBusy(s, t) && s.routes[t].room == room;
      RouteProgress(s, t);
    }
  }

  /** A retry task waits for nobody: its next attempt can be made, and the queue decides how it ends. */
  lemma RetryGoesOn(s: State, t: RouteId, c: ConnId)
    requires Reachable(s) && (t, c) in s.fates && s.fates[(t, c)].RetryPending?
    ensures c in s.chans && |s.chans[c].queue| <= 64
    ensures if |s.chans[c].queue| < 64
            then Enabled(s, Queue(RetrySucceed(t, c))) && !Enabled(s, Queue(RetryGiveUp(t, c)))
            else Enabled(s, Queue(RetryGiveUp(t, c))) && !Enabled(s, Queue(RetrySucceed(t, c)))
  {
    ReachableInv(s);
    ReachableChan(s, c);
    RetriesExactly(s, t, c);
  }
}
