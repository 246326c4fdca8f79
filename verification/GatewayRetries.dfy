/** A retry that fails disconnects its connection, for good. */
module GatewayRetries {
  import opened Registry
  import opened Gateway
  import opened GatewayKeys
  import opened GatewayRegistry
  import opened GatewayLog

  ghost predicate AllRegistered(conns: Conns, targets: seq<ConnTarget>) {
    forall i :: 0 <= i < |targets| ==> HasRegistered(conns, targets[i].conn)
  }

  ghost predicate RouteMet(rt: Route, conns: Conns) {
    match rt.phase
    case Scanning(_, seen) => AllRegistered(conns, seen)
    case Sending(_, _, targets, _) => AllRegistered(conns, targets)
    case _ => true
  }

  /** Route calls deal only with connections that have registered. */
  ghost predicate Met(routes: map<RouteId, Route>, fates: map<(RouteId, ConnId), Fate>, conns: Conns) {
    && (forall t :: t in routes ==> RouteMet(routes[t], conns))
    && (forall t, c :: (t, c) in fates ==> HasRegistered(conns, c))
  }

  /** The unregister has found no room, or has removed. */
  predicate PastRemoval(unregs: map<Owner, Unreg>, o: Owner) {
    o in unregs && !unregs[o].phase.Waiting? && !unregs[o].phase.Holding?
  }

  /** Connections whose retries have failed and removed are not in the registry, and cannot enter it again. */
  ghost predicate Disconnected(s: State) {
    forall t, c :: PastRemoval(s.unregs, ByRetry(t, c)) ==> HasRegistered(s.conns, c) && !Present(s, c)
  }

  ghost predicate RetriesDone(s: State) {
    Met(s.routes, s.fates, s.conns) && Disconnected(s)
  }

  // ---- every step keeps it ----

  ghost predicate StillRegistered(conns: Conns, conns': Conns) {
    forall c :: HasRegistered(conns, c) ==>
      HasRegistered(conns', c) && conns'[c].room == conns[c].room && conns'[c].user == conns[c].user
  }

  lemma MetWith(routes: map<RouteId, Route>, fates: map<(RouteId, ConnId), Fate>, conns: Conns, conns': Conns)
    requires Met(routes, fates, conns) && StillRegistered(conns, conns')
    ensures Met(routes, fates, conns')
  {
    forall t | t in routes ensures RouteMet(routes[t], conns') {
      assert RouteMet(routes[t], conns);
    }
  }

  lemma HandlerKeepsRetries(s: State, step: HandlerStep)
    requires RetriesDone(s) && HandlerEnabled(s, step)
    ensures RetriesDone(HandlerEffect(s, step))
  {
    MetWith(s.routes, s.fates, s.conns, HandlerEffect(s, step).conns);
  }

  lemma UnregKeepsRetries(s: State, step: UnregStep)
    requires Books(s) && RetriesDone(s) && UnregEnabled(s, step)
    ensures RetriesDone(UnregEffect(s, step))
  {
  }

  lemma ScanKeepsRetries(s: State, step: ScanStep)
    requires RetriesDone(s) && EntriesLive(s.rooms, s.conns, s.unregs) && ScanEnabled(s, step)
    ensures RetriesDone(ScanEffect(s, step))
  {
    assert RouteMet(s.routes[step.route], s.conns);
    if step.Visit? {
      assert Registered(s.rooms, s.routes[step.route].room, step.user);
    }
  }

  lemma SendKeepsRetries(s: State, step: SendStep)
    requires RetriesDone(s) && EntriesLive(s.rooms, s.conns, s.unregs) && SendEnabled(s, step)
    ensures RetriesDone(SendEffect(s, step))
  {
    var rt := s.routes[step.route];
    assert RouteMet(rt, s.conns);
    if step.SendAddressed? && SendTarget(s, step).Some? {
      assert Registered(s.rooms, rt.room, rt.user);
    }
  }

  lemma QueueKeepsRetries(s: State, step: QueueStep)
    requires RetriesDone(s) && QueueEnabled(s, step)
    ensures RetriesDone(QueueEffect(s, step))
  {
  }

  lemma NextKeepsRetries(s: State, step: Step)
    requires Inv(s) && RetriesDone(s)
    ensures RetriesDone(Next(s, step))
  {
    if Enabled(s, step) {
      match step
      case Handler(handler) => HandlerKeepsRetries(s, handler);
      case Unregister(unregister) => UnregKeepsRetries(s, unregister);
      case Scan(scan) => ScanKeepsRetries(s, scan);
      case Send(send) => SendKeepsRetries(s, send);
      case Queue(queue) => QueueKeepsRetries(s, queue);
      case Arrive(_, _) =>
    }
  }

  lemma {:induction false} ExecKeepsRetries(steps: seq<Step>)
    ensures RetriesDone(Exec(INIT, steps))
    decreases |steps|
  {
    if steps == [] {
    } else {
      ExecKeepsInv(steps[..|steps| - 1]);
      ExecKeepsRetries(steps[..|steps| - 1]);
      NextKeepsRetries(Exec(INIT, steps[..|steps| - 1]), steps[|steps| - 1]);
    }
  }

  /**
   * In every reachable state: once the unregister of a failed retry is past its removal, the
   * connection it gave up is not registered, whatever happens afterwards.
   */
  lemma FailedRetryDisconnectsForGood(s: State, t: RouteId, c: ConnId)
    requires Reachable(s) && PastRemoval(s.unregs, ByRetry(t, c))
    ensures (t, c) in s.fates && s.fates[(t, c)].RetryFailed?
    ensures c in s.conns && !Present(s, c)
  {
    ReachableInv(s);
    var steps :| Exec(INIT, steps) == s;
    ExecKeepsRetries(steps);
    assert !Present(s, c);
  }
}
