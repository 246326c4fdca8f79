/**
 * A broadcast's scan is not atomic: members may be removed while it runs. Its read guard keeps
 * registrations out, so it serves everybody who stays and nobody who was never there.
 */
module GatewaySnapshot {
  import opened Wrappers
  import opened GatewayProtocol
  import opened Registry
  import opened Gateway
  import opened GatewayKeys
  import opened GatewayRegistry
  import opened GatewayLog
  import opened GatewayRuns

  type Table = map<Id, ConnId>

  ghost predicate Within(part: Table, whole: Table) {
    forall u :: u in part ==> u in whole && whole[u] == part[u]
  }

  predicate HasTarget(targets: seq<ConnTarget>, user: Id, c: ConnId) {
    exists i :: 0 <= i < |targets| && targets[i] == Target(user, c)
  }

  ghost predicate Covers(targets: seq<ConnTarget>, finish: Table) {
    forall u :: u in finish ==> HasTarget(targets, u, finish[u])
  }

  ghost predicate GoodSnapshot(start: Table, finish: Table, targets: seq<ConnTarget>) {
    Within(finish, start) && TakenFrom(targets, start) && Covers(targets, finish) && DistinctUsers(targets)
  }

  ghost predicate RouteSnapshot(rt: Route, rooms: Rooms<Id, ConnId>) {
    match rt.phase
    case Scanning(start, seen) =>
      rt.room in rooms && Within(rooms[rt.room], start) && TakenFrom(seen, start) && DistinctUsers(seen)
    case Sending(start, finish, targets, _) => GoodSnapshot(start, finish, targets)
    case BroadcastDone(start, finish, targets) => GoodSnapshot(start, finish, targets)
    case _ => true
  }

  ghost predicate Snapshots(routes: map<RouteId, Route>, rooms: Rooms<Id, ConnId>) {
    forall t :: t in routes ==> RouteSnapshot(routes[t], rooms)
  }

  // ---- steps that change the registry ----

  lemma HandlerKeepsSnapshots(s: State, step: HandlerStep)
    requires Guards(s) && Snapshots(s.routes, s.rooms) && HandlerEnabled(s, step)
    ensures var s' := HandlerEffect(s, step); Snapshots(s'.routes, s'.rooms)
  {
  }

  lemma UnregKeepsSnapshots(s: State, step: UnregStep)
    requires Guards(s) && Snapshots(s.routes, s.rooms) && UnregEnabled(s, step)
    ensures var s' := UnregEffect(s, step); Snapshots(s'.routes, s'.rooms)
  {
  }

  // ---- steps of the call itself ----

  lemma ScanKeepsSnapshots(s: State, step: ScanStep)
    requires Snapshots(s.routes, s.rooms) && ScanEnabled(s, step)
    ensures var s' := ScanEffect(s, step); Snapshots(s'.routes, s'.rooms)
  {
  }

  lemma SendKeepsSnapshots(s: State, step: SendStep)
    requires Snapshots(s.routes, s.rooms) && SendEnabled(s, step)
    ensures var s' := SendEffect(s, step); Snapshots(s'.routes, s'.rooms)
  {
  }

  lemma NextKeepsSnapshots(s: State, step: Step)
    requires Guards(s) && Snapshots(s.routes, s.rooms)
    ensures Snapshots(Next(s, step).routes, Next(s, step).rooms)
  {
    if Enabled(s, step) {
      match step
      case Handler(handler) => HandlerKeepsSnapshots(s, handler);
      case Unregister(unregister) => UnregKeepsSnapshots(s, unregister);
      case Scan(scan) => ScanKeepsSnapshots(s, scan);
      case Send(send) => SendKeepsSnapshots(s, send);
      case Queue(_) =>
      case Arrive(_, _) =>
    }
  }

  lemma {:induction false} ExecKeepsSnapshots(steps: seq<Step>)
    ensures Snapshots(Exec(INIT, steps).routes, Exec(INIT, steps).rooms)
    decreases |steps|
  {
    if steps == [] {
    } else {
      ExecKeepsInv(steps[..|steps| - 1]);
      ExecKeepsSnapshots(steps[..|steps| - 1]);
      NextKeepsSnapshots(Exec(INIT, steps[..|steps| - 1]), steps[|steps| - 1]);
    }
  }

  lemma ReachableSnapshots(s: State)
    requires Reachable(s)
    ensures Snapshots(s.routes, s.rooms) && Ledger(s.fates, s.routes)
  {
    ReachableInv(s);
    var steps :| Exec(INIT, steps) == s;
    ExecKeepsSnapshots(steps);
  }

  ghost predicate HasConn(targets: seq<ConnTarget>, c: ConnId) {
    exists i :: 0 <= i < |targets| && targets[i].conn == c
  }

  lemma FatesOfTargets(s: State, t: RouteId, c: ConnId)
    requires Ledger(s.fates, s.routes) && t in s.routes && s.routes[t].phase.BroadcastDone?
    ensures (t, c) in s.fates <==> HasConn(s.routes[t].phase.targets, c)
  {
  }

  /**
   * A finished broadcast has a fate for exactly its targets: one per user, everybody registered
   * through the whole scan among them, and nobody who was not registered when it began.
   */
  lemma BroadcastSnapshot(s: State, t: RouteId)
    requires Reachable(s) && t in s.routes && s.routes[t].phase.BroadcastDone?
    ensures var phase := s.routes[t].phase;
      && DistinctUsers(phase.targets) && TakenFrom(phase.targets, phase.start)
      && Within(phase.finish, phase.start)
      && (forall u :: u in phase.finish ==> HasTarget(phase.targets, u, phase.finish[u]))
      && (forall c :: (t, c) in s.fates <==> HasConn(phase.targets, c))
  {
    ReachableSnapshots(s);
    assert RouteSnapshot(s.routes[t], s.rooms);
    forall c ensures (t, c) in s.fates <==> HasConn(s.routes[t].phase.targets, c) {
      FatesOfTargets(s, t, c);
    }
  }

  // ---- the scan among the steps of a run ----

  /** Step k is enabled, and finds these members in the room. */
  ghost predicate FindsAt(steps: seq<Step>, k: int, step: ScanStep, room: Id, members: Table) {
    && 0 <= k < |steps| && steps[k] == Scan(step) && ScanEnabled(Exec(INIT, steps[..k]), step)
    && Members(Exec(INIT, steps[..k]).rooms, room) == members
  }

  function StartOf(rt: Route): Option<Table> {
    match rt.phase
    case Scanning(start, _) => Some(start)
    case Sending(start, _, _, _) => Some(start)
    case BroadcastDone(start, _, _) => Some(start)
    case _ => None
  }

  function FinishOf(rt: Route): Option<Table> {
    match rt.phase
    case Sending(_, finish, _, _) => Some(finish)
    case BroadcastDone(_, finish, _) => Some(finish)
    case _ => None
  }

  /** The scan began at step a. */
  ghost predicate BeganAt(steps: seq<Step>, a: int, t: RouteId, rt: Route) {
    StartOf(rt).Some? && FindsAt(steps, a, FindRoom(t), rt.room, StartOf(rt).value)
  }

  ghost predicate EndedAt(steps: seq<Step>, b: int, t: RouteId, rt: Route) {
    FinishOf(rt).Some? && FindsAt(steps, b, EndScan(t), rt.room, FinishOf(rt).value)
  }

  ghost predicate Witnessed(steps: seq<Step>, t: RouteId, rt: Route) {
    && (StartOf(rt).Some? ==> exists a :: BeganAt(steps, a, t, rt))
    && (FinishOf(rt).Some? ==> exists a, b :: a < b && BeganAt(steps, a, t, rt) && EndedAt(steps, b, t, rt))
  }

  predicate SameScan(rt: Route, rt': Route) {
    rt'.room == rt.room && StartOf(rt') == StartOf(rt) && FinishOf(rt') == FinishOf(rt)
  }

  /** The step leaves the call's scan as it was, begins it, or ends it. */
  predicate Advances(s: State, step: Step, t: RouteId, rt': Route) {
    if t !in s.routes then StartOf(rt').None? && FinishOf(rt').None?
    else
      var rt := s.routes[t];
      || SameScan(rt, rt')
      || (step == Scan(FindRoom(t)) && Enabled(s, step) && rt'.room == rt.room && FinishOf(rt').None?
          && StartOf(rt') == Some(Members(s.rooms, rt.room)))
      || (step == Scan(EndScan(t)) && Enabled(s, step) && rt'.room == rt.room && StartOf(rt).Some?
          && StartOf(rt') == StartOf(rt) && FinishOf(rt') == Some(Members(s.rooms, rt.room)))
  }

  lemma ScanAdvances(s: State, step: ScanStep, t: RouteId)
    requires ScanEnabled(s, step) && t in s.routes
    ensures Advances(s, Scan(step), t, ScanEffect(s, step).routes[t])
  {
  }

  lemma SendAdvances(s: State, step: SendStep, t: RouteId)
    requires SendEnabled(s, step) && t in s.routes
    ensures SameScan(s.routes[t], SendEffect(s, step).routes[t])
  {
  }

  lemma OtherStepAdvances(s: State, step: Step, t: RouteId)
    requires Enabled(s, step) && !step.Scan? && !step.Arrive? && t in Next(s, step).routes
    ensures t in s.routes && SameScan(s.routes[t], Next(s, step).routes[t])
  {
    match step
    case Handler(handler) => HandlerKeepsRoutes(s, handler);
    case Unregister(unregister) => UnregKeepsRoutes(s, unregister);
    case Send(send) => SendKeepsRoutes(s, send); SendAdvances(s, send, t);
    case Queue(queue) => QueueKeepsRoutes(s, queue);
  }

  lemma ArriveAdvances(s: State, step: Step, t: RouteId)
    requires Enabled(s, step) && step.Arrive? && t in Next(s, step).routes
    ensures Advances(s, step, t, Next(s, step).routes[t])
  {
  }

  lemma NextAdvances(s: State, step: Step, t: RouteId)
    requires t in Next(s, step).routes
    ensures Advances(s, step, t, Next(s, step).routes[t])
  {
    if Enabled(s, step) {
      if step.Scan? {
        ScanAdvances(s, step.scan, t);
      } else if step.Arrive? {
        ArriveAdvances(s, step, t);
      } else {
        OtherStepAdvances(s, step, t);
      }
    }
  }

  lemma FindsInPrefix(steps: seq<Step>, n: nat, k: int, step: ScanStep, room: Id, members: Table)
    requires n <= |steps| && FindsAt(steps[..n], k, step, room, members)
    ensures FindsAt(steps, k, step, room, members) && k < n
  {
    assert steps[..n][..k] == steps[..k];
  }

  lemma WitnessedBefore(steps: seq<Step>, n: nat, t: RouteId, rt: Route, rt': Route)
    requires n <= |steps| && Witnessed(steps[..n], t, rt) && SameScan(rt, rt')
    ensures Witnessed(steps, t, rt')
  {
    if FinishOf(rt).Some? {
      var a, b :| a < b && BeganAt(steps[..n], a, t, rt) && EndedAt(steps[..n], b, t, rt);
      FindsInPrefix(steps, n, a, FindRoom(t), rt.room, StartOf(rt).value);
      FindsInPrefix(steps, n, b, EndScan(t), rt.room, FinishOf(rt).value);
      assert BeganAt(steps, a, t, rt') && EndedAt(steps, b, t, rt');
    } else if StartOf(rt).Some? {
      var a :| BeganAt(steps[..n], a, t, rt);
      FindsInPrefix(steps, n, a, FindRoom(t), rt.room, StartOf(rt).value);
      assert BeganAt(steps, a, t, rt');
    }
  }

  lemma WitnessedNow(steps: seq<Step>, n: nat, t: RouteId, rt: Route, rt': Route)
    requires n == |steps| - 1 && rt'.room == rt.room && StartOf(rt').Some?
    requires Witnessed(steps[..n], t, rt)
    requires
      || (FinishOf(rt').None? && FindsAt(steps, n, FindRoom(t), rt.room, StartOf(rt').value))
      || (StartOf(rt') == StartOf(rt) && FinishOf(rt').Some?
          && FindsAt(steps, n, EndScan(t), rt.room, FinishOf(rt').value))
    ensures Witnessed(steps, t, rt')
  {
    if FinishOf(rt').None? {
      assert BeganAt(steps, n, t, rt');
    } else {
      var a :| BeganAt(steps[..n], a, t, rt);
      FindsInPrefix(steps, n, a, FindRoom(t), rt.room, StartOf(rt).value);
      assert BeganAt(steps, a, t, rt') && EndedAt(steps, n, t, rt');
    }
  }

  lemma {:induction false} ScansWitnessed(steps: seq<Step>, t: RouteId)
    requires t in Exec(INIT, steps).routes
    ensures Witnessed(steps, t, Exec(INIT, steps).routes[t])
    decreases |steps|
  {
    if steps == [] {
    } else {
      var n := |steps| - 1;
      var s := Exec(INIT, steps[..n]);
      NextAdvances(s, steps[n], t);
      if t in s.routes {
        ScansWitnessed(steps[..n], t);
        var (rt, rt') := (s.routes[t], Next(s, steps[n]).routes[t]);
        if SameScan(rt, rt') {
          WitnessedBefore(steps, n, t, rt, rt');
        } else {
          WitnessedNow(steps, n, t, rt, rt');
        }
      }
    }
  }

  predicate RegisteredAs(s: State, room: Id, user: Id, c: ConnId) {
    Registered(s.rooms, room, user) && s.rooms[room][user] == c
  }

  /** The connection is registered in some, or in every, state from before step a to before step b. */
  ghost predicate RegisteredOnce(steps: seq<Step>, a: int, b: int, room: Id, user: Id, c: ConnId)
    requires 0 <= a < b < |steps|
  {
    exists k :: a <= k <= b && RegisteredAs(Exec(INIT, steps[..k]), room, user, c)
  }

  ghost predicate RegisteredThroughout(steps: seq<Step>, a: int, b: int, room: Id, user: Id, c: ConnId)
    requires 0 <= a < b < |steps|
  {
    forall k :: a <= k <= b ==> RegisteredAs(Exec(INIT, steps[..k]), room, user, c)
  }

  /** From step a to step b the call scans its room. */
  ghost predicate ScansBetween(steps: seq<Step>, a: int, b: int, t: RouteId) {
    && 0 <= a < b < |steps| && steps[a] == Scan(FindRoom(t)) && steps[b] == Scan(EndScan(t))
    && Enabled(Exec(INIT, steps[..a]), steps[a]) && Enabled(Exec(INIT, steps[..b]), steps[b])
  }

  ghost predicate ServesScanned(steps: seq<Step>, a: int, b: int, room: Id, targets: seq<ConnTarget>)
    requires 0 <= a < b < |steps|
  {
    && (forall u, c :: RegisteredThroughout(steps, a, b, room, u, c) ==> HasTarget(targets, u, c))
    && (forall i :: 0 <= i < |targets| ==> RegisteredOnce(steps, a, b, room, targets[i].user, targets[i].conn))
  }

  lemma ServesWhatItFinds(steps: seq<Step>, a: int, b: int, t: RouteId, rt: Route)
    requires rt.phase.BroadcastDone? && GoodSnapshot(rt.phase.start, rt.phase.finish, rt.phase.targets)
    requires a < b && BeganAt(steps, a, t, rt) && EndedAt(steps, b, t, rt)
    ensures ScansBetween(steps, a, b, t) && ServesScanned(steps, a, b, rt.room, rt.phase.targets)
  {
    forall u, c | RegisteredThroughout(steps, a, b, rt.room, u, c) ensures HasTarget(rt.phase.targets, u, c) {
      assert RegisteredAs(Exec(INIT, steps[..b]), rt.room, u, c);
      assert u in rt.phase.finish && rt.phase.finish[u] == c;
    }
    forall i | 0 <= i < |rt.phase.targets|
      ensures RegisteredOnce(steps, a, b, rt.room, rt.phase.targets[i].user, rt.phase.targets[i].conn)
    {
      assert RegisteredAs(Exec(INIT, steps[..a]), rt.room, rt.phase.targets[i].user, rt.phase.targets[i].conn);
    }
  }

  /**
   * Of every finished broadcast, in terms of the run: between the step that found the room and the
   * one that ended the scan, whoever was registered throughout is a target, and each target was
   * registered at some moment.
   */
  lemma BroadcastServesScanned(steps: seq<Step>, t: RouteId)
    requires t in Exec(INIT, steps).routes && Exec(INIT, steps).routes[t].phase.BroadcastDone?
    ensures var rt := Exec(INIT, steps).routes[t];
      exists a, b :: ScansBetween(steps, a, b, t) && ServesScanned(steps, a, b, rt.room, rt.phase.targets)
  {
    var rt := Exec(INIT, steps).routes[t];
    ExecKeepsSnapshots(steps);
    assert RouteSnapshot(rt, Exec(INIT, steps).rooms);
    ScansWitnessed(steps, t);
    var a, b :| a < b && BeganAt(steps, a, t, rt) && EndedAt(steps, b, t, rt);
    ServesWhatItFinds(steps, a, b, t, rt);
  }
}
