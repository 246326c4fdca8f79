/**
 * The registry refines a flat table of (room, user): it holds what replaying the inserts and
 * removes in the order of their linearisation points gives. From that, who is registered when.
 */
module GatewayLog {
  import opened GatewayProtocol
  import opened Registry
  import opened Gateway
  import opened GatewayKeys
  import opened GatewayRegistry

  /** The flat table: register sets the key, unregister clears it, whoever's sender it holds. */
  function ReplayEvent(table: map<(Id, Id), ConnId>, e: Event): map<(Id, Id), ConnId> {
    if e.Inserted? then table[(e.room, e.user) := e.conn] else table - {(e.room, e.user)}
  }

  function Replay(log: seq<Event>): map<(Id, Id), ConnId> {
    if log == [] then map[] else ReplayEvent(Replay(log[..|log| - 1]), log[|log| - 1])
  }

  predicate OnKey(e: Event, room: Id, user: Id) {
    e.room == room && e.user == user
  }

  predicate InsertedAt(log: seq<Event>, i: int, c: ConnId) {
    0 <= i < |log| && log[i].Inserted? && log[i].conn == c
  }

  /** No event on this key after position i. */
  ghost predicate QuietAfter(log: seq<Event>, i: int, room: Id, user: Id) {
    forall j :: i < j < |log| && 0 <= j ==> !OnKey(log[j], room, user)
  }

  /** The table holds c under the key iff the last event on the key inserted c. */
  lemma {:induction false} LastEventDecides(log: seq<Event>, room: Id, user: Id, c: ConnId)
    ensures ((room, user) in Replay(log) && Replay(log)[(room, user)] == c) <==>
            exists i :: InsertedAt(log, i, c) && OnKey(log[i], room, user) && QuietAfter(log, i, room, user)
    decreases |log|
  {
    if log == [] {
    } else {
      var n := |log| - 1;
      var init := log[..n];
      LastEventDecides(init, room, user, c);
      if OnKey(log[n], room, user) {
        if InsertedAt(log, n, c) {
          assert QuietAfter(log, n, room, user);
        }
      } else {
        if i :| InsertedAt(init, i, c) && OnKey(init[i], room, user) && QuietAfter(init, i, room, user) {
          assert InsertedAt(log, i, c) && QuietAfter(log, i, room, user);
        }
        if i :| InsertedAt(log, i, c) && OnKey(log[i], room, user) && QuietAfter(log, i, room, user) {
          assert InsertedAt(init, i, c) && QuietAfter(init, i, room, user);
        }
      }
    }
  }

  // ---- the log of a run ----

  ghost predicate InsertsLogged(log: seq<Event>, conns: Conns) {
    && (forall i :: 0 <= i < |log| && log[i].Inserted? ==>
          HasRegistered(conns, log[i].conn) && IsConn(conns, log[i].conn, log[i].room, log[i].user))
    && (forall i, j :: 0 <= i < j < |log| && log[i].Inserted? && log[j].Inserted? ==> log[i].conn != log[j].conn)
    && (forall c :: HasRegistered(conns, c) ==> exists i :: InsertedAt(log, i, c))
  }

  ghost predicate ErasesLogged(log: seq<Event>, unregs: map<Owner, Unreg>) {
    forall i :: 0 <= i < |log| && log[i].Erased? ==>
      && log[i].owner in unregs
      && log[i].room == unregs[log[i].owner].room && log[i].user == unregs[log[i].owner].user
      && !unregs[log[i].owner].phase.Waiting? && !unregs[log[i].owner].phase.Holding?
  }

  ghost predicate Refines(rooms: Rooms<Id, ConnId>, log: seq<Event>) {
    Flat(rooms) == Replay(log)
  }

  ghost predicate Logged(s: State) {
    Refines(s.rooms, s.log) && InsertsLogged(s.log, s.conns) && ErasesLogged(s.log, s.unregs)
  }

  lemma ReplayAppend(log: seq<Event>, e: Event)
    ensures Replay(log + [e]) == ReplayEvent(Replay(log), e)
  {
  }

  lemma InsertsLoggedWith(log: seq<Event>, conns: Conns, conns': Conns)
    requires InsertsLogged(log, conns) && KeysKept(conns, conns')
    requires forall c :: HasRegistered(conns', c) <==> HasRegistered(conns, c)
    ensures InsertsLogged(log, conns')
  {
  }

  lemma LogInsert(log: seq<Event>, conns: Conns, conns': Conns, c: ConnId)
    requires InsertsLogged(log, conns) && c in conns && conns[c].phase.Entering?
    requires conns' == conns[c := conns[c].(phase := Uncounted)]
    ensures InsertsLogged(log + [Inserted(conns[c].room, conns[c].user, c)], conns')
  {
    var log' := log + [Inserted(conns[c].room, conns[c].user, c)];
    assert InsertedAt(log', |log|, c);
    forall d | HasRegistered(conns', d) ensures exists i :: InsertedAt(log', i, d) {
      if d != c {
        assert HasRegistered(conns, d);
        var i :| InsertedAt(log, i, d);
        assert InsertedAt(log', i, d);
      }
    }
  }

  lemma LogErase(log: seq<Event>, conns: Conns, e: Event)
    requires InsertsLogged(log, conns) && e.Erased?
    ensures InsertsLogged(log + [e], conns)
  {
    forall d | HasRegistered(conns, d) ensures exists i :: InsertedAt(log + [e], i, d) {
      var i :| InsertedAt(log, i, d);
      assert InsertedAt(log + [e], i, d);
    }
  }

  lemma HandlerKeepsRefines(s: State, step: HandlerStep)
    requires Refines(s.rooms, s.log) && HandlerEnabled(s, step)
    requires step.InsertSelf? ==> s.conns[step.conn].room in s.rooms
    ensures var s' := HandlerEffect(s, step); Refines(s'.rooms, s'.log)
  {
    var c := step.conn;
    if step.EnterRoom? {
      EnsureIsInvisible(s.rooms, s.conns[c].room);
    } else if step.InsertSelf? {
      InsertTakesEffect(s.rooms, s.conns[c].room, s.conns[c].user, c);
      ReplayAppend(s.log, Inserted(s.conns[c].room, s.conns[c].user, c));
    }
  }

  lemma HandlerKeepsInserts(s: State, step: HandlerStep)
    requires InsertsLogged(s.log, s.conns) && HandlerEnabled(s, step)
    ensures var s' := HandlerEffect(s, step); InsertsLogged(s'.log, s'.conns)
  {
    var s' := HandlerEffect(s, step);
    if step.InsertSelf? {
      LogInsert(s.log, s.conns, s'.conns, step.conn);
    } else {
      InsertsLoggedWith(s.log, s.conns, s'.conns);
    }
  }

  lemma HandlerKeepsErases(s: State, step: HandlerStep)
    requires ErasesLogged(s.log, s.unregs) && OwnersDone(s.unregs, s.conns, s.fates) && HandlerEnabled(s, step)
    ensures var s' := HandlerEffect(s, step); ErasesLogged(s'.log, s'.unregs)
  {
  }

  lemma UnregKeepsRefines(s: State, step: UnregStep)
    requires Refines(s.rooms, s.log) && UnregEnabled(s, step)
    ensures var s' := UnregEffect(s, step); Refines(s'.rooms, s'.log)
  {
    var un := s.unregs[step.owner];
    if step.Erase? {
      RemoveTakesEffect(s.rooms, un.room, un.user);
      ReplayAppend(s.log, Erased(un.room, un.user, step.owner));
    } else if step.CleanUp? {
      RemoveIfEmptyIsInvisible(s.rooms, un.room);
    }
  }

  lemma UnregKeepsEvents(s: State, step: UnregStep)
    requires InsertsLogged(s.log, s.conns) && ErasesLogged(s.log, s.unregs) && UnregEnabled(s, step)
    ensures var s' := UnregEffect(s, step); InsertsLogged(s'.log, s'.conns) && ErasesLogged(s'.log, s'.unregs)
  {
    if step.Erase? {
      LogErase(s.log, s.conns, Erased(s.unregs[step.owner].room, s.unregs[step.owner].user, step.owner));
    }
  }

  lemma FrameKeepsLogged(s: State, s': State)
    requires Logged(s) && LeavesRegistry(s, s')
    ensures Logged(s')
  {
  }

  lemma NextKeepsLogged(s: State, step: Step)
    requires Books(s) && Sound(s) && Logged(s)
    ensures Logged(Next(s, step))
  {
    if Enabled(s, step) {
      match step
      case Handler(handler) =>
        HandlerKeepsRefines(s, handler);
        HandlerKeepsInserts(s, handler);
        HandlerKeepsErases(s, handler);
      case Unregister(unregister) =>
        UnregKeepsRefines(s, unregister);
        UnregKeepsEvents(s, unregister);
      case _ =>
        DeliveryLeavesRegistry(s, step);
        FrameKeepsLogged(s, Next(s, step));
    }
  }

  // ---- whole runs ----

  ghost predicate Inv(s: State) {
    Books(s) && Sound(s) && Logged(s)
  }

  lemma InitHolds()
    ensures Inv(INIT)
  {
  }

  lemma NextKeepsInv(s: State, step: Step)
    requires Inv(s)
    ensures Inv(Next(s, step))
  {
    NextKeepsBooks(s, step);
    NextKeepsSound(s, step);
    NextKeepsLogged(s, step);
  }

  lemma {:induction false} ExecKeepsInv(steps: seq<Step>)
    ensures Inv(Exec(INIT, steps))
    decreases |steps|
  {
    if steps == [] {
      InitHolds();
    } else {
      ExecKeepsInv(steps[..|steps| - 1]);
      NextKeepsInv(Exec(INIT, steps[..|steps| - 1]), steps[|steps| - 1]);
    }
  }

  lemma ReachableInv(s: State)
    requires Reachable(s)
    ensures Inv(s)
  {
    var steps :| Exec(INIT, steps) == s;
    ExecKeepsInv(steps);
  }

  /** After every run the two-level registry holds exactly the replay of its linearisation points. */
  lemma RegistryRefinesFlatTable(s: State)
    requires Reachable(s)
    ensures Flat(s.rooms) == Replay(s.log)
  {
    ReachableInv(s);
  }

  /**
   * Cleanup race safety: an empty room is present only while a handler is about to fill it or an
   * unregistration past its remove is about to test or sweep it, and sweeping discards no sender.
   */
  lemma CleanupRaceSafety(s: State, step: UnregStep)
    requires Reachable(s)
    ensures forall r :: r in s.rooms && s.rooms[r] == map[] ==> Attended(s.conns, s.unregs, r)
    ensures UnregEnabled(s, step) && !step.Erase? ==> Flat(UnregEffect(s, step).rooms) == Flat(s.rooms)
  {
    ReachableInv(s);
    if UnregEnabled(s, step) && step.CleanUp? {
      RemoveIfEmptyIsInvisible(s.rooms, s.unregs[step.owner].room);
    }
  }

  /** Nobody is registering and no unregistration is between its remove and its clean-up. */
  ghost predicate Quiescent(s: State) {
    && (forall c :: c in s.conns ==> !s.conns[c].phase.Entering?)
    && (forall o :: o in s.unregs ==> !s.unregs[o].phase.Removed? && !s.unregs[o].phase.CleaningUp?)
  }

  lemma QuiescentHasNoEmptyRoom(s: State)
    requires EmptyRoomsAttended(s.rooms, s.conns, s.unregs) && Quiescent(s)
    ensures NoEmptyRoom(s.rooms)
  {
  }

  /** No empty room survives quiescence, and then both counters count the flat table. */
  lemma QuiescentCounts(s: State)
    requires Reachable(s)
    requires forall c :: c in s.conns ==> s.conns[c].phase != Entering
    requires forall o :: o in s.unregs ==> s.unregs[o].phase != Removed && s.unregs[o].phase != CleaningUp
    ensures NoEmptyRoom(s.rooms)
    ensures UsersIn(s.rooms, s.rooms.Keys) == |Replay(s.log)|
    ensures |s.rooms| == |UsedRooms(s.rooms)|
  {
    ReachableInv(s);
    QuiescentHasNoEmptyRoom(s);
    UserCountIsFlatSize(s.rooms);
    RoomCountIsFlatRooms(s.rooms);
  }

  /** The connection's sender is the one registered under its key. */
  predicate Present(s: State, c: ConnId)
    requires c in s.conns
  {
    Registered(s.rooms, s.conns[c].room, s.conns[c].user) && s.rooms[s.conns[c].room][s.conns[c].user] == c
  }

  lemma PresentInReplay(s: State, c: ConnId)
    requires Refines(s.rooms, s.log) && c in s.conns
    ensures var k := (s.conns[c].room, s.conns[c].user);
      Present(s, c) <==> k in Replay(s.log) && Replay(s.log)[k] == c
  {
  }

  /** Position j of the log takes c's registration away from c: a newer connection, or another task's removal. */
  predicate LosesAt(log: seq<Event>, j: int, c: ConnId, room: Id, user: Id) {
    && 0 <= j < |log| && OnKey(log[j], room, user)
    && match log[j]
       case Inserted(_, _, d) => d != c
       case Erased(_, _, o) => o != ByHandler(c)
  }

  /** Somebody took c's registration away after c made it. */
  ghost predicate Lost(log: seq<Event>, c: ConnId, room: Id, user: Id) {
    exists i, j :: InsertedAt(log, i, c) && i < j && LosesAt(log, j, c, room, user)
  }

  lemma LostInReplay(log: seq<Event>, i: int, c: ConnId, room: Id, user: Id)
    requires InsertedAt(log, i, c) && OnKey(log[i], room, user)
    requires forall j :: InsertedAt(log, j, c) ==> j == i
    requires forall j :: 0 <= j < |log| && log[j].Erased? ==> log[j].owner != ByHandler(c)
    ensures ((room, user) in Replay(log) && Replay(log)[(room, user)] == c) <==> !Lost(log, c, room, user)
  {
    LastEventDecides(log, room, user, c);
    if !QuietAfter(log, i, room, user) {
      var j :| i < j < |log| && 0 <= j && OnKey(log[j], room, user);
      assert j != i ==> !InsertedAt(log, j, c);
      assert LosesAt(log, j, c, room, user);
    }
  }

  /**
   * A live handler's sender is absent exactly when, after its own registration, a later register
   * replaced it or somebody else's unregister on its key removed it.
   */
  lemma ExactLoss(s: State, c: ConnId)
    requires Reachable(s) && LiveHandler(s.conns, s.unregs, c)
    ensures !Present(s, c) <==> Lost(s.log, c, s.conns[c].room, s.conns[c].user)
  {
    ReachableInv(s);
    PresentInReplay(s, c);
    var i :| InsertedAt(s.log, i, c);
    LostInReplay(s.log, i, c, s.conns[c].room, s.conns[c].user);
  }

  // ---- no zombies ----

  function LiveSet(conns: Conns, unregs: map<Owner, Unreg>): set<ConnId> {
    set c | c in conns && LiveHandler(conns, unregs, c)
  }

  lemma {:induction false} InjectiveSize<K, V>(m: map<K, V>, within: set<V>)
    requires forall k :: k in m ==> m[k] in within
    requires forall k, l :: k in m && l in m && m[k] == m[l] ==> k == l
    ensures |m| <= |within|
    decreases |m|
  {
    if m == map[] {
    } else {
      var k :| k in m;
      InjectiveSize(m - {k}, within - {m[k]});
    }
  }

  /** Live handlers, in phases: past its insert, and its own unregister not past its removal. */
  lemma LiveHandlersInPhases(s: State, c: ConnId)
    ensures LiveHandler(s.conns, s.unregs, c) <==>
      && c in s.conns && s.conns[c].phase in {Uncounted, Serving, Closing, Left}
      && (ByHandler(c) in s.unregs ==> s.unregs[ByHandler(c)].phase in {Waiting, Holding})
  {
  }

  /** Every registered sender belongs to a live handler, so entries never outnumber those handlers. */
  lemma NoZombies(s: State)
    requires Reachable(s)
    ensures forall r, u :: Registered(s.rooms, r, u) ==> LiveHandler(s.conns, s.unregs, s.rooms[r][u])
    ensures |Flat(s.rooms)| <= |LiveSet(s.conns, s.unregs)|
  {
    ReachableInv(s);
    var f := Flat(s.rooms);
    forall k | k in f ensures f[k] in LiveSet(s.conns, s.unregs) && IsConn(s.conns, f[k], k.0, k.1) {
      assert k == (k.0, k.1) && Registered(s.rooms, k.0, k.1);
    }
    InjectiveSize(f, LiveSet(s.conns, s.unregs));
  }

  /** The connection counter always equals the number of handlers between its add and its sub. */
  lemma ActiveCounterExact(s: State)
    requires Reachable(s)
    ensures s.active == |set c | c in s.conns && s.conns[c].phase == Serving|
    ensures s.active >= 0
  {
    ReachableInv(s);
    assert ServingSet(s.conns) == set c | c in s.conns && s.conns[c].phase == Serving;
  }
}
