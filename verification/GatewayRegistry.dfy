/** What every run of the gateway keeps about the registry, its guards and its handlers. */
module GatewayRegistry {
  import opened GatewayProtocol
  import opened Registry
  import opened Gateway
  import opened GatewayKeys

  // ---- guards ----

  ghost predicate RouteGuards(routes: map<RouteId, Route>, rooms: Rooms<Id, ConnId>) {
    forall t :: t in routes && RouteHolds(routes[t]) ==> routes[t].room in rooms
  }

  ghost predicate UnregGuards(unregs: map<Owner, Unreg>, rooms: Rooms<Id, ConnId>) {
    forall o :: o in unregs && UnregHolds(unregs[o]) ==> unregs[o].room in rooms
  }

  /** The entry guard of a registering handler excludes every other guard on the room. */
  ghost predicate EntryGuards(conns: Conns, rooms: Rooms<Id, ConnId>, routes: map<RouteId, Route>,
                              unregs: map<Owner, Unreg>)
  {
    && (forall c :: c in conns && conns[c].phase.Entering? ==>
          conns[c].room in rooms && NoRouteReads(routes, conns[c].room) && NoUnregReads(unregs, conns[c].room))
    && (forall c, d ::
          (c in conns && conns[c].phase.Entering? && d in conns && conns[d].phase.Entering?
           && conns[c].room == conns[d].room)
          ==> c == d)
  }

  ghost predicate Guards(s: State) {
    && RouteGuards(s.routes, s.rooms) && UnregGuards(s.unregs, s.rooms)
    && EntryGuards(s.conns, s.rooms, s.routes, s.unregs)
  }

  // ---- entries ----

  /** The handler's own unregister has done its removal. */
  predicate Cleaned(unregs: map<Owner, Unreg>, c: ConnId) {
    ByHandler(c) in unregs && !unregs[ByHandler(c)].phase.Waiting? && !unregs[ByHandler(c)].phase.Holding?
  }

  predicate HasRegistered(conns: Conns, c: ConnId) {
    c in conns && !conns[c].phase.Opening? && !conns[c].phase.Entering?
  }

  /** A handler that has registered and whose own unregister has not removed its key yet. */
  predicate LiveHandler(conns: Conns, unregs: map<Owner, Unreg>, c: ConnId) {
    HasRegistered(conns, c) && !Cleaned(unregs, c)
  }

  /** No zombies: every registered sender belongs to a live handler. */
  ghost predicate EntriesLive(rooms: Rooms<Id, ConnId>, conns: Conns, unregs: map<Owner, Unreg>) {
    forall r, u :: Registered(rooms, r, u) ==> LiveHandler(conns, unregs, rooms[r][u])
  }

  predicate Enters(conns: Conns, c: ConnId, room: Id) {
    c in conns && conns[c].phase.Entering? && conns[c].room == room
  }

  predicate Sweeps(unregs: map<Owner, Unreg>, o: Owner, room: Id) {
    o in unregs && (unregs[o].phase.Removed? || unregs[o].phase.CleaningUp?) && unregs[o].room == room
  }

  /** Somebody is bound to fill or to remove the room: a registering handler, or an unregistration past its remove. */
  ghost predicate Attended(conns: Conns, unregs: map<Owner, Unreg>, room: Id) {
    (exists c :: Enters(conns, c, room)) || (exists o :: Sweeps(unregs, o, room))
  }

  ghost predicate EmptyRoomsAttended(rooms: Rooms<Id, ConnId>, conns: Conns, unregs: map<Owner, Unreg>) {
    forall r :: r in rooms && rooms[r] == map[] ==> Attended(conns, unregs, r)
  }

  /** The active-connection counter counts the serving handlers. */
  function ServingSet(conns: Conns): set<ConnId> {
    set c | c in conns && conns[c].phase.Serving?
  }

  ghost predicate Sound(s: State) {
    && Guards(s)
    && EntriesLive(s.rooms, s.conns, s.unregs)
    && EmptyRoomsAttended(s.rooms, s.conns, s.unregs)
    && s.active == |ServingSet(s.conns)|
  }

  // ---- handlers ----

  /** The empty rooms of s' other than `own` were empty before, and their attendants remain. */
  lemma KeepsAttended(s: State, s': State, own: Id)
    requires EmptyRoomsAttended(s.rooms, s.conns, s.unregs)
    requires forall r :: r in s'.rooms && r != own ==> r in s.rooms && s'.rooms[r] == s.rooms[r]
    requires forall c, r :: Enters(s.conns, c, r) && r != own ==> Enters(s'.conns, c, r)
    requires forall o, r :: Sweeps(s.unregs, o, r) && r != own ==> Sweeps(s'.unregs, o, r)
    requires own in s'.rooms && s'.rooms[own] == map[] ==> Attended(s'.conns, s'.unregs, own)
    ensures EmptyRoomsAttended(s'.rooms, s'.conns, s'.unregs)
  {
  }

  lemma ServingChanges(conns: Conns, c: ConnId, phase: ConnPhase)
    requires c in conns
    ensures var after := ServingSet(conns[c := conns[c].(phase := phase)]);
      after == if phase.Serving? then ServingSet(conns) + {c} else ServingSet(conns) - {c}
  {
  }

  lemma EnterKeepsGuards(s: State, c: ConnId)
    requires Sound(s) && HandlerEnabled(s, EnterRoom(c))
    ensures var s' := HandlerEffect(s, EnterRoom(c));
      Guards(s') && EntriesLive(s'.rooms, s'.conns, s'.unregs)
  {
  }

  lemma InsertKeepsGuards(s: State, c: ConnId)
    requires Guards(s) && HandlerEnabled(s, InsertSelf(c))
    ensures Guards(HandlerEffect(s, InsertSelf(c)))
  {
  }

  lemma InsertKeepsLive(s: State, c: ConnId)
    requires OwnersDone(s.unregs, s.conns, s.fates) && EntriesLive(s.rooms, s.conns, s.unregs)
    requires HandlerEnabled(s, InsertSelf(c))
    ensures var s' := HandlerEffect(s, InsertSelf(c)); EntriesLive(s'.rooms, s'.conns, s'.unregs)
  {
  }

  lemma OtherHandlerKeepsGuards(s: State, step: HandlerStep)
    requires Guards(s) && OwnersDone(s.unregs, s.conns, s.fates)
    requires HandlerEnabled(s, step) && !step.EnterRoom? && !step.InsertSelf?
    ensures Guards(HandlerEffect(s, step))
  {
  }

  lemma OtherHandlerKeepsLive(s: State, step: HandlerStep)
    requires EntriesLive(s.rooms, s.conns, s.unregs) && OwnersDone(s.unregs, s.conns, s.fates)
    requires HandlerEnabled(s, step) && !step.EnterRoom? && !step.InsertSelf?
    ensures var s' := HandlerEffect(s, step); EntriesLive(s'.rooms, s'.conns, s'.unregs)
  {
  }

  lemma RegisterKeepsAttended(s: State, step: HandlerStep)
    requires Sound(s) && HandlerEnabled(s, step) && (step.EnterRoom? || step.InsertSelf?)
    ensures var s' := HandlerEffect(s, step); EmptyRoomsAttended(s'.rooms, s'.conns, s'.unregs)
  {
    var (c, s') := (step.conn, HandlerEffect(s, step));
    var own := s.conns[c].room;
    if step.EnterRoom? {
      assert Enters(s'.conns, c, own);
    } else {
      assert s.conns[c].user in s'.rooms[own];
    }
    KeepsAttended(s, s', own);
  }

  lemma OtherHandlerKeepsAttended(s: State, step: HandlerStep)
    requires EmptyRoomsAttended(s.rooms, s.conns, s.unregs) && OwnersDone(s.unregs, s.conns, s.fates)
    requires HandlerEnabled(s, step) && !step.EnterRoom? && !step.InsertSelf?
    ensures var s' := HandlerEffect(s, step); EmptyRoomsAttended(s'.rooms, s'.conns, s'.unregs)
  {
    var s' := HandlerEffect(s, step);
    forall r | r in s'.rooms && s'.rooms[r] == map[] ensures Attended(s'.conns, s'.unregs, r) {
      assert Attended(s.conns, s.unregs, r);
      assert forall d :: Enters(s.conns, d, r) ==> Enters(s'.conns, d, r);
      assert forall o :: Sweeps(s.unregs, o, r) ==> Sweeps(s'.unregs, o, r);
    }
  }

  lemma HandlerKeepsCount(s: State, step: HandlerStep)
    requires s.active == |ServingSet(s.conns)| && HandlerEnabled(s, step)
    ensures var s' := HandlerEffect(s, step); s'.active == |ServingSet(s'.conns)|
  {
    var s' := HandlerEffect(s, step);
    if step.Connect? {
      assert ServingSet(s'.conns) == ServingSet(s.conns);
    } else {
      ServingChanges(s.conns, step.conn, s'.conns[step.conn].phase);
    }
  }

  lemma HandlerKeepsSound(s: State, step: HandlerStep)
    requires Books(s) && Sound(s) && HandlerEnabled(s, step)
    ensures Sound(HandlerEffect(s, step))
  {
    HandlerKeepsCount(s, step);
    if step.EnterRoom? {
      EnterKeepsGuards(s, step.conn);
      RegisterKeepsAttended(s, step);
    } else if step.InsertSelf? {
      InsertKeepsGuards(s, step.conn);
      InsertKeepsLive(s, step.conn);
      RegisterKeepsAttended(s, step);
    } else {
      OtherHandlerKeepsGuards(s, step);
      OtherHandlerKeepsLive(s, step);
      OtherHandlerKeepsAttended(s, step);
    }
  }

  // ---- unregistrations ----

  lemma UnregKeepsAttended(s: State, step: UnregStep)
    requires Sound(s) && UnregEnabled(s, step)
    ensures var s' := UnregEffect(s, step); EmptyRoomsAttended(s'.rooms, s'.conns, s'.unregs)
  {
    var (o, s') := (step.owner, UnregEffect(s, step));
    var own := s.unregs[o].room;
    if step.FindUnregRoom? {
      if own in s'.rooms && s'.rooms[own] == map[] {
        assert Attended(s.conns, s.unregs, own);
        assert forall o' :: Sweeps(s.unregs, o', own) ==> Sweeps(s'.unregs, o', own);
      }
    } else if step.Erase? || (step.TestEmpty? && Members(s.rooms, own) == map[]) {
      assert Sweeps(s'.unregs, o, own);
    }
    KeepsAttended(s, s', own);
  }

  lemma UnregKeepsHolders(s: State, step: UnregStep)
    requires Guards(s) && UnregEnabled(s, step)
    ensures var s' := UnregEffect(s, step); RouteGuards(s'.routes, s'.rooms) && UnregGuards(s'.unregs, s'.rooms)
  {
  }

  lemma UnregKeepsEntryGuards(s: State, step: UnregStep)
    requires Guards(s) && UnregEnabled(s, step)
    ensures var s' := UnregEffect(s, step); EntryGuards(s'.conns, s'.rooms, s'.routes, s'.unregs)
  {
  }

  lemma UnregKeepsGuards(s: State, step: UnregStep)
    requires Sound(s) && UnregEnabled(s, step)
    ensures Guards(UnregEffect(s, step))
  {
    UnregKeepsHolders(s, step);
    UnregKeepsEntryGuards(s, step);
  }

  lemma UnregKeepsLive(s: State, step: UnregStep)
    requires Books(s) && Sound(s) && UnregEnabled(s, step)
    ensures var s' := UnregEffect(s, step); EntriesLive(s'.rooms, s'.conns, s'.unregs)
  {
  }

  lemma UnregKeepsSound(s: State, step: UnregStep)
    requires Books(s) && Sound(s) && UnregEnabled(s, step)
    ensures Sound(UnregEffect(s, step))
  {
    UnregKeepsAttended(s, step);
    UnregKeepsGuards(s, step);
    UnregKeepsLive(s, step);
  }

  // ---- the rest leaves the registry alone ----

  predicate SameRegistry(s: State, s': State) {
    s'.rooms == s.rooms && s'.conns == s.conns && s'.log == s.log && s'.active == s.active
  }

  /** A route call that holds a guard held it before, or has just found its room with no writer on it. */
  ghost predicate RoutesAdvance(s: State, s': State) {
    forall t :: t in s'.routes && RouteHolds(s'.routes[t]) ==>
      && t in s.routes && s'.routes[t].room == s.routes[t].room
      && (RouteHolds(s.routes[t]) || (s.routes[t].room in s.rooms && NoWriter(s.conns, s.routes[t].room)))
  }

  /** Unregistrations stay as they are; a new one is a waiting retry task's. */
  ghost predicate UnregsWait(s: State, s': State) {
    && (forall o :: o in s.unregs ==> o in s'.unregs && s'.unregs[o] == s.unregs[o])
    && (forall o :: o in s'.unregs && o !in s.unregs ==> s'.unregs[o].phase.Waiting? && o.ByRetry?)
  }

  ghost predicate LeavesRegistry(s: State, s': State) {
    SameRegistry(s, s') && RoutesAdvance(s, s') && UnregsWait(s, s')
  }

  lemma RouteFrame(s: State, step: Step)
    requires Enabled(s, step) && (step.Scan? || step.Arrive?)
    ensures LeavesRegistry(s, Next(s, step))
  {
  }

  lemma SendFrame(s: State, step: SendStep)
    requires SendEnabled(s, step)
    ensures LeavesRegistry(s, SendEffect(s, step))
  {
  }

  lemma QueueFrame(s: State, step: QueueStep)
    requires OwnersDone(s.unregs, s.conns, s.fates) && QueueEnabled(s, step)
    ensures LeavesRegistry(s, QueueEffect(s, step))
  {
  }

  lemma DeliveryLeavesRegistry(s: State, step: Step)
    requires OwnersDone(s.unregs, s.conns, s.fates) && Enabled(s, step) && !step.Handler? && !step.Unregister?
    ensures LeavesRegistry(s, Next(s, step))
  {
    match step
    case Send(send) => SendFrame(s, send);
    case Queue(queue) => QueueFrame(s, queue);
    case _ => RouteFrame(s, step);
  }

  lemma FrameKeepsSound(s: State, s': State)
    requires Sound(s) && LeavesRegistry(s, s')
    ensures Sound(s')
  {
    forall r | r in s'.rooms && s'.rooms[r] == map[] ensures Attended(s'.conns, s'.unregs, r) {
      assert Attended(s.conns, s.unregs, r);
      assert forall o :: Sweeps(s.unregs, o, r) ==> Sweeps(s'.unregs, o, r);
    }
  }

  lemma NextKeepsSound(s: State, step: Step)
    requires Books(s) && Sound(s)
    ensures Sound(Next(s, step))
  {
    if Enabled(s, step) {
      match step
      case Handler(handler) => HandlerKeepsSound(s, handler);
      case Unregister(unregister) => UnregKeepsSound(s, unregister);
      case _ =>
        DeliveryLeavesRegistry(s, step);
        FrameKeepsSound(s, Next(s, step));
    }
  }
}
