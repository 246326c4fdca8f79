/**
 * Who is served by a route call, in terms of the registry and the fates alone: whoever is
 * registered all along and addressed, and nobody who was not registered at some moment.
 */
module GatewayService {
  import opened Wrappers
  import opened GatewayProtocol
  import opened Registry
  import opened Gateway
  import opened GatewayKeys
  import opened GatewayLog
  import opened GatewayDelivery
  import opened GatewayRuns
  import opened GatewaySnapshot

  /** Step a spawns the call. */
  predicate ArrivesAt(steps: seq<Step>, a: int, t: RouteId) {
    0 <= a < |steps| && steps[a].Arrive? && steps[a].route == t && Enabled(Exec(INIT, steps[..a]), steps[a])
  }

  /** The call has run to its end. */
  predicate Finished(rt: Route) {
    rt.phase.NoRoom? || rt.phase.BroadcastDone? || rt.phase.UnicastDone?
  }

  /** The packet of the call is for this user of its room. */
  predicate IsFor(rt: Route, user: Id) {
    rt.header.targetType.Broadcast? || rt.user == user
  }

  // ---- everybody registered all along is served ----

  /** The connection is registered in every state from after step a on. */
  ghost predicate RegisteredSince(steps: seq<Step>, a: int, room: Id, user: Id, c: ConnId)
    requires 0 <= a < |steps|
  {
    forall k :: a < k <= |steps| ==> RegisteredAs(Exec(INIT, steps[..k]), room, user, c)
  }

  /** The call is on its way to serve the connection, or has done so. */
  ghost predicate OnTrack(rt: Route, user: Id, c: ConnId) {
    match rt.phase
    case Spawned => true
    case Scanning(_, _) => rt.header.targetType.Broadcast?
    case Sending(_, _, targets, _) => HasTarget(targets, user, c)
    case BroadcastDone(_, _, targets) => HasTarget(targets, user, c)
    case Addressing => rt.header.targetType.Unicast?
    case UnicastDone(target) => rt.header.targetType.Unicast? && (rt.user == user ==> target == Some(Target(user, c)))
    case NoRoom => false
  }

  lemma ScanStaysOnTrack(s: State, step: ScanStep, t: RouteId, user: Id, c: ConnId)
    requires ScanEnabled(s, step) && t in s.routes && OnTrack(s.routes[t], user, c)
    requires RegisteredAs(s, s.routes[t].room, user, c)
    requires Snapshots(ScanEffect(s, step).routes, s.rooms)
    ensures OnTrack(ScanEffect(s, step).routes[t], user, c)
  {
    if step == EndScan(t) {
      assert RouteSnapshot(ScanEffect(s, step).routes[t], s.rooms);
      assert user in Members(s.rooms, s.routes[t].room);
    }
  }

  lemma SendStaysOnTrack(s: State, step: SendStep, t: RouteId, user: Id, c: ConnId)
    requires SendEnabled(s, step) && t in s.routes && OnTrack(s.routes[t], user, c)
    requires RegisteredAs(s, s.routes[t].room, user, c)
    ensures OnTrack(SendEffect(s, step).routes[t], user, c)
  {
  }

  lemma StaysOnTrack(s: State, step: Step, t: RouteId, user: Id, c: ConnId)
    requires t in s.routes && OnTrack(s.routes[t], user, c) && RegisteredAs(s, s.routes[t].room, user, c)
    requires Snapshots(Next(s, step).routes, Next(s, step).rooms)
    ensures t in Next(s, step).routes && OnTrack(Next(s, step).routes[t], user, c)
  {
    if !Enabled(s, step) {
    } else if step.Scan? {
      ScanStaysOnTrack(s, step.scan, t, user, c);
    } else if step.Send? {
      SendStaysOnTrack(s, step.send, t, user, c);
    } else {
      OthersLeaveCall(s, step, t);
    }
  }

  lemma ExecStep(steps: seq<Step>, m: nat)
    requires m < |steps|
    ensures Exec(INIT, steps[..m + 1]) == Next(Exec(INIT, steps[..m]), steps[m])
  {
    assert steps[..m + 1][..m] == steps[..m];
  }

  lemma TrackedOnArrival(s: State, step: Step, user: Id, c: ConnId)
    requires step.Arrive? && Enabled(s, step)
    ensures step.route in Next(s, step).routes && OnTrack(Next(s, step).routes[step.route], user, c)
  {
  }

  lemma TrackedByStep(s: State, step: Step, t: RouteId, user: Id, c: ConnId)
    requires t in s.routes && OnTrack(s.routes[t], user, c) && RegisteredAs(s, s.routes[t].room, user, c)
    requires Snapshots(Next(s, step).routes, Next(s, step).rooms)
    ensures t in Next(s, step).routes && OnTrack(Next(s, step).routes[t], user, c)
    ensures Next(s, step).routes[t].room == s.routes[t].room
  {
    StaysOnTrack(s, step, t, user, c);
    NextKeepsRoutes(s, step);
    assert SameCall(s.routes[t], Next(s, step).routes[t]);
  }

  /** After m steps the call is on track, for a connection registered from step a to then. */
  ghost predicate Tracked(steps: seq<Step>, m: nat, t: RouteId, room: Id, user: Id, c: ConnId)
    requires m <= |steps|
  {
    var s := Exec(INIT, steps[..m]);
    t in s.routes && (s.routes[t].room == room ==> OnTrack(s.routes[t], user, c))
  }

  lemma RoomStays(s: State, step: Step, t: RouteId)
    requires t in s.routes
    ensures t in Next(s, step).routes && Next(s, step).routes[t].room == s.routes[t].room
  {
    NextKeepsRoutes(s, step);
    assert SameCall(s.routes[t], Next(s, step).routes[t]);
  }

  lemma TrackedNext(steps: seq<Step>, m: nat, t: RouteId, room: Id, user: Id, c: ConnId)
    requires m < |steps| && Tracked(steps, m, t, room, user, c)
    requires RegisteredAs(Exec(INIT, steps[..m]), room, user, c)
    ensures Tracked(steps, m + 1, t, room, user, c)
  {
    var s := Exec(INIT, steps[..m]);
    ExecStep(steps, m);
    RoomStays(s, steps[m], t);
    if s.routes[t].room == room {
      ExecKeepsSnapshots(steps[..m + 1]);
      TrackedByStep(s, steps[m], t, user, c);
    }
  }

  lemma {:induction false} TrackedSince(steps: seq<Step>, a: nat, m: nat, t: RouteId, room: Id, user: Id, c: ConnId)
    requires ArrivesAt(steps, a, t) && a < m <= |steps|
    requires forall k :: a < k <= |steps| ==> RegisteredAs(Exec(INIT, steps[..k]), room, user, c)
    ensures Tracked(steps, m, t, room, user, c)
    decreases m
  {
    if m == a + 1 {
      ExecStep(steps, a);
      TrackedOnArrival(Exec(INIT, steps[..a]), steps[a], user, c);
    } else {
      TrackedSince(steps, a, m - 1, t, room, user, c);
      TrackedNext(steps, m - 1, t, room, user, c);
    }
  }

  /**
   * A finished call has dispatched to everybody whom its packet is for and who was registered in
   * its room in every state since it arrived.
   */
  lemma ServesTheRegistered(steps: seq<Step>, a: int, t: RouteId, user: Id, c: ConnId)
    requires ArrivesAt(steps, a, t) && t in Exec(INIT, steps).routes
    requires
      var rt := Exec(INIT, steps).routes[t];
      Finished(rt) && IsFor(rt, user) && RegisteredSince(steps, a, rt.room, user, c)
    ensures (t, c) in Exec(INIT, steps).fates
  {
    var s := Exec(INIT, steps);
    TrackedSince(steps, a, |steps|, t, s.routes[t].room, user, c);
    assert steps[..|steps|] == steps;
    ExecKeepsInv(steps);
    assert Dispatched(s.routes[t], c);
  }

  // ---- nobody else is served, and nobody is passed over without a reason ----

  /** In some state since the call arrived. */
  ghost predicate Moment(steps: seq<Step>, t: RouteId, a: int, k: int) {
    ArrivesAt(steps, a, t) && a < k <= |steps|
  }

  ghost predicate OnceRegistered(steps: seq<Step>, t: RouteId, room: Id, user: Id, c: ConnId) {
    exists a, k :: Moment(steps, t, a, k) && RegisteredAs(Exec(INIT, steps[..k]), room, user, c)
  }

  ghost predicate OnceUnregistered(steps: seq<Step>, t: RouteId, room: Id, user: Id) {
    exists a, k :: Moment(steps, t, a, k) && !Registered(Exec(INIT, steps[..k]).rooms, room, user)
  }

  ghost predicate OnceNoRoom(steps: seq<Step>, t: RouteId, room: Id) {
    exists a, k :: Moment(steps, t, a, k) && room !in Exec(INIT, steps[..k]).rooms
  }

  ghost predicate AllOnceRegistered(steps: seq<Step>, t: RouteId, room: Id, targets: seq<ConnTarget>) {
    forall i :: 0 <= i < |targets| ==> OnceRegistered(steps, t, room, targets[i].user, targets[i].conn)
  }

  /** Each target was registered at some moment; a missing user or room was missing at some moment. */
  ghost predicate Reasoned(steps: seq<Step>, t: RouteId, rt: Route) {
    match rt.phase
    case Spawned => true
    case Addressing => true
    case Scanning(_, seen) => rt.header.targetType.Broadcast? && AllOnceRegistered(steps, t, rt.room, seen)
    case Sending(_, _, targets, _) => rt.header.targetType.Broadcast? && AllOnceRegistered(steps, t, rt.room, targets)
    case BroadcastDone(_, _, targets) =>
      rt.header.targetType.Broadcast? && AllOnceRegistered(steps, t, rt.room, targets)
    case UnicastDone(target) =>
      if target.Some? then target.value.user == rt.user && OnceRegistered(steps, t, rt.room, rt.user, target.value.conn)
      else OnceUnregistered(steps, t, rt.room, rt.user)
    case NoRoom => OnceNoRoom(steps, t, rt.room)
  }

  lemma MomentStays(steps: seq<Step>, n: nat, t: RouteId, a: int, k: int)
    requires n <= |steps| && Moment(steps[..n], t, a, k)
    ensures Moment(steps, t, a, k) && steps[..n][..k] == steps[..k]
  {
    assert steps[..n][..a] == steps[..a];
  }

  lemma TargetsStay(steps: seq<Step>, n: nat, t: RouteId, room: Id, targets: seq<ConnTarget>)
    requires n <= |steps| && AllOnceRegistered(steps[..n], t, room, targets)
    ensures AllOnceRegistered(steps, t, room, targets)
  {
    forall i | 0 <= i < |targets| ensures OnceRegistered(steps, t, room, targets[i].user, targets[i].conn) {
      RegisteredStays(steps, n, t, room, targets[i].user, targets[i].conn);
    }
  }

  lemma RegisteredStays(steps: seq<Step>, n: nat, t: RouteId, room: Id, user: Id, c: ConnId)
    requires n <= |steps| && OnceRegistered(steps[..n], t, room, user, c)
    ensures OnceRegistered(steps, t, room, user, c)
  {
    var a, k :| Moment(steps[..n], t, a, k) && RegisteredAs(Exec(INIT, steps[..n][..k]), room, user, c);
    MomentStays(steps, n, t, a, k);
  }

  lemma ReasonsStay(steps: seq<Step>, n: nat, t: RouteId, rt: Route)
    requires n <= |steps| && Reasoned(steps[..n], t, rt)
    ensures Reasoned(steps, t, rt)
  {
    match rt.phase
    case Spawned =>
    case Addressing =>
    case Scanning(_, seen) => TargetsStay(steps, n, t, rt.room, seen);
    case Sending(_, _, targets, _) => TargetsStay(steps, n, t, rt.room, targets);
    case BroadcastDone(_, _, targets) => TargetsStay(steps, n, t, rt.room, targets);
    case UnicastDone(target) =>
      if target.Some? {
        RegisteredStays(steps, n, t, rt.room, rt.user, target.value.conn);
      } else {
        var a, k :| Moment(steps[..n], t, a, k) && !Registered(Exec(INIT, steps[..n][..k]).rooms, rt.room, rt.user);
        MomentStays(steps, n, t, a, k);
      }
    case NoRoom =>
      var a, k :| Moment(steps[..n], t, a, k) && rt.room !in Exec(INIT, steps[..n][..k]).rooms;
      MomentStays(steps, n, t, a, k);
  }

  /** What a step adds to the reasons of the call, given a moment before it. */
  lemma ScanHasReason(steps: seq<Step>, n: nat, step: ScanStep, t: RouteId, a: int)
    requires n == |steps| - 1 && Moment(steps, t, a, n) && steps[n] == Scan(step) && step.route == t
    requires ScanEnabled(Exec(INIT, steps[..n]), step) && t in Exec(INIT, steps[..n]).routes
    requires Reasoned(steps, t, Exec(INIT, steps[..n]).routes[t])
    ensures Reasoned(steps, t, ScanEffect(Exec(INIT, steps[..n]), step).routes[t])
  {
    var s := Exec(INIT, steps[..n]);
    var (rt, rt') := (s.routes[t], ScanEffect(s, step).routes[t]);
    if step.Visit? {
      var next := Target(step.user, Members(s.rooms, rt.room)[step.user]);
      assert RegisteredAs(s, rt.room, next.user, next.conn);
      assert OnceRegistered(steps, t, rt.room, next.user, next.conn);
      forall i | 0 <= i < |rt'.phase.seen|
        ensures OnceRegistered(steps, t, rt.room, rt'.phase.seen[i].user, rt'.phase.seen[i].conn)
      {
        assert i < |rt.phase.seen| ==> rt'.phase.seen[i] == rt.phase.seen[i];
      }
    }
  }

  lemma SendHasReason(steps: seq<Step>, n: nat, step: SendStep, t: RouteId, a: int)
    requires n == |steps| - 1 && Moment(steps, t, a, n) && steps[n] == Send(step) && step.route == t
    requires SendEnabled(Exec(INIT, steps[..n]), step) && t in Exec(INIT, steps[..n]).routes
    requires Reasoned(steps, t, Exec(INIT, steps[..n]).routes[t])
    ensures Reasoned(steps, t, SendEffect(Exec(INIT, steps[..n]), step).routes[t])
  {
    var s := Exec(INIT, steps[..n]);
    var rt := s.routes[t];
    if step.SendAddressed? {
      var target := SendTarget(s, step);
      if target.Some? {
        assert RegisteredAs(s, rt.room, rt.user, target.value.conn);
      } else {
        assert !Registered(s.rooms, rt.room, rt.user);
      }
    }
  }

  lemma OthersLeaveCall(s: State, step: Step, t: RouteId)
    requires t in s.routes && Enabled(s, step)
    requires !(step.Scan? && step.scan.route == t) && !(step.Send? && step.send.route == t)
    ensures t in Next(s, step).routes && Next(s, step).routes[t] == s.routes[t]
  {
    match step
    case Handler(handler) => HandlerKeepsRoutes(s, handler);
    case Unregister(unregister) => UnregKeepsRoutes(s, unregister);
    case Scan(_) =>
    case Send(_) =>
    case Queue(queue) => QueueKeepsRoutes(s, queue);
    case Arrive(_, _) =>
  }

  lemma StepHasReason(steps: seq<Step>, n: nat, t: RouteId, a: int, s: State, step: Step)
    requires n == |steps| - 1 && Moment(steps, t, a, n) && s == Exec(INIT, steps[..n]) && step == steps[n]
    requires t in s.routes && Reasoned(steps, t, s.routes[t]) && Enabled(s, step)
    ensures t in Next(s, step).routes && Reasoned(steps, t, Next(s, step).routes[t])
  {
    if step.Scan? && step.scan.route == t {
      ScanHasReason(steps, n, step.scan, t, a);
    } else if step.Send? && step.send.route == t {
      SendHasReason(steps, n, step.send, t, a);
    } else {
      OthersLeaveCall(s, step, t);
    }
  }

  lemma {:induction false} CallsAreReasoned(steps: seq<Step>, t: RouteId) returns (a: int)
    requires t in Exec(INIT, steps).routes
    ensures ArrivesAt(steps, a, t) && Reasoned(steps, t, Exec(INIT, steps).routes[t])
    decreases |steps|
  {
    var n := |steps| - 1;
    var s := Exec(INIT, steps[..n]);
    NextKeepsRoutes(s, steps[n]);
    if t in s.routes {
      a := CallsAreReasoned(steps[..n], t);
      assert steps[..n][..a] == steps[..a];
      ReasonsStay(steps, n, t, s.routes[t]);
      if Enabled(s, steps[n]) {
        StepHasReason(steps, n, t, a, s, steps[n]);
      }
    } else {
      a := n;
    }
  }

  /** Whoever has been dispatched to is one of the targets. */
  lemma DispatchedHasReason(steps: seq<Step>, t: RouteId, rt: Route, c: ConnId)
    requires Reasoned(steps, t, rt) && Dispatched(rt, c)
    ensures exists user :: IsFor(rt, user) && OnceRegistered(steps, t, rt.room, user, c)
  {
    if rt.phase.UnicastDone? {
      assert OnceRegistered(steps, t, rt.room, rt.user, c);
    } else {
      var targets := rt.phase.targets;
      var i :| 0 <= i < |targets| && targets[i].conn == c;
      assert OnceRegistered(steps, t, rt.room, targets[i].user, c);
    }
  }

  /**
   * A call dispatches only to connections that its packet is for and that were registered in its
   * room at some moment since it arrived. It passes the whole room over only if the room was
   * absent at some such moment, and a unicast finds nobody only if its user was.
   */
  lemma ServesOnlyTheRegistered(steps: seq<Step>, t: RouteId, c: ConnId)
    requires t in Exec(INIT, steps).routes
    ensures var (s, rt) := (Exec(INIT, steps), Exec(INIT, steps).routes[t]);
      && ((t, c) in s.fates ==> exists user :: IsFor(rt, user) && OnceRegistered(steps, t, rt.room, user, c))
      && (rt.phase.NoRoom? ==> OnceNoRoom(steps, t, rt.room))
      && (rt.phase.UnicastDone? && rt.phase.target.None? ==> OnceUnregistered(steps, t, rt.room, rt.user))
  {
    var s := Exec(INIT, steps);
    var rt := s.routes[t];
    var _ := CallsAreReasoned(steps, t);
    ExecKeepsInv(steps);
    if (t, c) in s.fates {
      DispatchedHasReason(steps, t, rt, c);
    }
  }
}
