/**
 * What the guards of the registry keep apart, when each step that needs one can be taken, and what
 * comes in from outside, all in terms of the phases of the tasks.
 */
module GatewayGuards {
  import opened GatewayProtocol
  import opened Registry
  import opened Gateway
  import opened GatewayRegistry
  import opened GatewayLog

  /** A route call looks into the room or dispatches to its members. */
  ghost predicate CallInside(s: State, room: Id) {
    exists t :: t in s.routes && s.routes[t].room == room
      && (s.routes[t].phase.Scanning? || s.routes[t].phase.Sending? || s.routes[t].phase.Addressing?)
  }

  /** An unregistration has found the room and not yet let go of it. */
  ghost predicate UnregInside(s: State, room: Id) {
    exists o :: o in s.unregs && s.unregs[o].room == room
      && (s.unregs[o].phase.Holding? || s.unregs[o].phase.Removed?)
  }

  predicate EnteringRoom(s: State, c: ConnId, room: Id) {
    c in s.conns && s.conns[c].room == room && s.conns[c].phase.Entering?
  }

  /** A handler is registering in the room. */
  ghost predicate WriterInside(s: State, room: Id) {
    exists c :: EnteringRoom(s, c, room)
  }

  lemma ReachableGuards(s: State)
    requires Reachable(s)
    ensures Guards(s) && s.chans.Keys == s.conns.Keys
  {
    ReachableInv(s);
  }

  /** A registering handler is alone in its room, and whoever is inside a room finds it there. */
  lemma WritersExclude(s: State, room: Id)
    requires Reachable(s)
    ensures WriterInside(s, room) ==> room in s.rooms && !CallInside(s, room) && !UnregInside(s, room)
    ensures CallInside(s, room) || UnregInside(s, room) ==> room in s.rooms
    ensures forall c, d :: EnteringRoom(s, c, room) && EnteringRoom(s, d, room) ==> c == d
  {
    ReachableGuards(s);
  }

  lemma GuardsInPhases(s: State, room: Id)
    ensures NoWriter(s.conns, room) <==> !WriterInside(s, room)
    ensures Unguarded(s, room) <==> !WriterInside(s, room) && !CallInside(s, room) && !UnregInside(s, room)
  {
    if !NoWriter(s.conns, room) {
      var c :| c in s.conns && s.conns[c].phase.Entering? && s.conns[c].room == room;
      assert EnteringRoom(s, c, room);
    }
    if WriterInside(s, room) {
      var c :| EnteringRoom(s, c, room);
      assert !NoWriter(s.conns, room);
    }
    if !NoRouteReads(s.routes, room) {
      var t :| t in s.routes && RouteHolds(s.routes[t]) && s.routes[t].room == room;
      assert CallInside(s, room);
    }
    if !NoUnregReads(s.unregs, room) {
      var o :| o in s.unregs && UnregHolds(s.unregs[o]) && s.unregs[o].room == room;
      assert UnregInside(s, room);
    }
  }

  /** The entry guard needs the room for itself. */
  lemma EntersExactly(s: State, c: ConnId)
    requires Reachable(s)
    ensures Enabled(s, Handler(EnterRoom(c))) <==>
      && c in s.conns && s.conns[c].phase == Opening
      && var room := s.conns[c].room; !WriterInside(s, room) && !CallInside(s, room) && !UnregInside(s, room)
  {
    ReachableGuards(s);
    if c in s.conns {
      GuardsInPhases(s, s.conns[c].room);
    }
  }

  /** So does remove_if. */
  lemma CleansUpExactly(s: State, o: Owner)
    ensures Enabled(s, Unregister(CleanUp(o))) <==>
      && o in s.unregs && s.unregs[o].phase == CleaningUp
      && var room := s.unregs[o].room; !WriterInside(s, room) && !CallInside(s, room) && !UnregInside(s, room)
  {
    if o in s.unregs {
      GuardsInPhases(s, s.unregs[o].room);
    }
  }

  /** Looking the room up needs no writer inside. */
  lemma LooksUpExactly(s: State, o: Owner, t: RouteId)
    ensures Enabled(s, Unregister(FindUnregRoom(o))) <==>
      o in s.unregs && s.unregs[o].phase == Waiting && !WriterInside(s, s.unregs[o].room)
    ensures Enabled(s, Scan(FindRoom(t))) <==>
      t in s.routes && s.routes[t].phase == Spawned && !WriterInside(s, s.routes[t].room)
  {
    if o in s.unregs {
      GuardsInPhases(s, s.unregs[o].room);
    }
    if t in s.routes {
      GuardsInPhases(s, s.routes[t].room);
    }
  }

  /** An unregistration that finds its room removes under its key, and sweeps the room if that left it empty. */
  lemma UnregistersInOrder(s: State, o: Owner)
    requires o in s.unregs
    ensures
      var un := s.unregs[o];
      && (Enabled(s, Unregister(FindUnregRoom(o))) ==>
            (Next(s, Unregister(FindUnregRoom(o))).unregs[o].phase == Done <==> un.room !in s.rooms))
      && (un.phase == Holding ==> !Registered(Next(s, Unregister(Erase(o))).rooms, un.room, un.user))
      && (un.phase == Removed && un.room in s.rooms ==>
            (Next(s, Unregister(TestEmpty(o))).unregs[o].phase == CleaningUp <==> s.rooms[un.room] == map[]))
      && (Enabled(s, Unregister(CleanUp(o))) && un.room in s.rooms && s.rooms[un.room] == map[] ==>
            un.room !in Next(s, Unregister(CleanUp(o))).rooms)
  {
  }

  /** A buffer can arrive at any time, if it encodes a well-formed packet. */
  lemma ArrivesExactly(s: State, t: RouteId, raw: Frame)
    ensures Enabled(s, Arrive(t, raw)) <==> t !in s.routes && exists h, p :: WellFormed(h, p) && raw == Encode(h, p)
  {
    DecodeAcceptsExactlyEncodings(raw);
  }

  /** A connection can come at any time, if its ids are ASCII and fit. */
  lemma ComesExactly(s: State, c: ConnId, room: Id, user: Id)
    ensures Enabled(s, Handler(Connect(c, room, user))) <==>
      && c !in s.conns && |room| <= 6 && |user| <= 8
      && (forall i :: 0 <= i < |room| ==> room[i] < 128) && (forall i :: 0 <= i < |user| ==> user[i] < 128)
  {
  }

  /** A serving handler's client can leave at any time. */
  lemma GoesExactly(s: State, c: ConnId)
    requires Reachable(s)
    ensures Enabled(s, Handler(Leave(c))) <==> c in s.conns && s.conns[c].phase == Serving
  {
    ReachableGuards(s);
  }

  /**
   * A handler that has left its loop for good runs its own unregister, under its own key, and it is
   * not registered any more when that is past its removal.
   */
  lemma LeavingUnregisters(s: State, c: ConnId)
    requires Reachable(s) && c in s.conns
    ensures s.conns[c].phase == Left <==> ByHandler(c) in s.unregs
    ensures ByHandler(c) in s.unregs ==>
      && s.unregs[ByHandler(c)].room == s.conns[c].room && s.unregs[ByHandler(c)].user == s.conns[c].user
      && (s.unregs[ByHandler(c)].phase in {Removed, CleaningUp, Done} ==> !Present(s, c))
  {
    ReachableInv(s);
    var steps :| Exec(INIT, steps) == s;
    ExecKeepsLeft(steps);
  }

  /** Handlers that have left have an unregistration. */
  ghost predicate LeftUnregister(s: State) {
    forall c :: c in s.conns && s.conns[c].phase.Left? ==> ByHandler(c) in s.unregs
  }

  lemma DeliveryKeepsLeft(s: State, s': State)
    requires LeftUnregister(s) && LeavesRegistry(s, s')
    ensures LeftUnregister(s')
  {
  }

  lemma HandlerKeepsLeft(s: State, step: HandlerStep)
    requires LeftUnregister(s) && HandlerEnabled(s, step)
    ensures LeftUnregister(HandlerEffect(s, step))
  {
  }

  lemma UnregKeepsLeft(s: State, step: UnregStep)
    requires LeftUnregister(s) && UnregEnabled(s, step)
    ensures LeftUnregister(UnregEffect(s, step))
  {
  }

  lemma {:induction false} ExecKeepsLeft(steps: seq<Step>)
    ensures LeftUnregister(Exec(INIT, steps))
    decreases |steps|
  {
    if steps == [] {
    } else {
      var (s, step) := (Exec(INIT, steps[..|steps| - 1]), steps[|steps| - 1]);
      ExecKeepsLeft(steps[..|steps| - 1]);
      ExecKeepsInv(steps[..|steps| - 1]);
      if Enabled(s, step) {
        match step
        case Handler(handler) => HandlerKeepsLeft(s, handler);
        case Unregister(unregister) => UnregKeepsLeft(s, unregister);
        case _ =>
          DeliveryLeavesRegistry(s, step);
          DeliveryKeepsLeft(s, Next(s, step));
      }
    }
  }
}
