/** What every run of the gateway keeps about the packets: where they come from and what becomes of them. */
module GatewayDelivery {
  import opened Wrappers
  import opened GatewayProtocol
  import opened Channel
  import opened Backpressure
  import opened Gateway
  import opened GatewayKeys

  type Routes = map<RouteId, Route>
  type Fates = map<(RouteId, ConnId), Fate>

  // ---- route calls ----

  /** Same call, possibly in another phase. */
  predicate SameCall(rt: Route, rt': Route) {
    rt' == rt.(phase := rt'.phase)
  }

  ghost predicate RoutesKept(routes: Routes, routes': Routes) {
    forall t :: t in routes ==> t in routes' && SameCall(routes[t], routes'[t])
  }

  /** The call was spawned for a buffer that decodes to its header and payload. */
  ghost predicate Authentic(rt: Route) {
    && Decode(rt.raw) == Ok((rt.header, rt.payload))
    && rt.room == rt.header.RoomIdStr() && rt.user == rt.header.UserIdStr()
  }

  /** Re-encoding in dispatch gives back the buffer that arrived. */
  predicate Transparent(rt: Route) {
    Encode(rt.header, rt.payload) == rt.raw
  }

  ghost predicate AllTransparent(routes: Routes) {
    forall t :: t in routes ==> Transparent(routes[t])
  }

  // ---- channels ----

  predicate HasItemOf(ch: Chan<Item>, t: RouteId) {
    exists i :: 0 <= i < |ch.accepted| && ch.accepted[i].route == t
  }

  predicate IsAccepted(fates: Fates, t: RouteId, c: ConnId) {
    (t, c) in fates && fates[(t, c)].Accepted?
  }

  /** The item is the buffer of a route call that may go to this connection. */
  predicate GoodItem(item: Item, routes: Routes, conn: Conn) {
    item.route in routes && item.packet == routes[item.route].raw && Addressed(routes[item.route], conn)
  }

  ghost predicate GoodItems(ch: Chan<Item>, routes: Routes, conn: Conn) {
    forall i :: 0 <= i < |ch.accepted| ==> GoodItem(ch.accepted[i], routes, conn)
  }

  ghost predicate AtMostOnce(ch: Chan<Item>) {
    forall i, j :: 0 <= i < j < |ch.accepted| ==> ch.accepted[i].route != ch.accepted[j].route
  }

  /** Only RawMotion pushes an item out. */
  ghost predicate EvictedByMotion(ch: Chan<Item>, routes: Routes) {
    forall i :: i in ch.evictedBy ==>
      && ch.evictedBy[i] < |ch.accepted|
      && ch.accepted[ch.evictedBy[i]].route in routes
      && routes[ch.accepted[ch.evictedBy[i]].route].header.packetType.RawMotion?
  }

  ghost predicate GoodChan(ch: Chan<Item>, c: ConnId, conn: Conn, routes: Routes, fates: Fates) {
    && Accounted(ch) && ch.capacity == WS_CHANNEL_CAPACITY
    && GoodItems(ch, routes, conn)
    && AtMostOnce(ch)
    && EvictedByMotion(ch, routes)
    && (forall t :: HasItemOf(ch, t) <==> IsAccepted(fates, t, c))
  }

  ghost predicate GoodChans(s: State) {
    forall c :: c in s.chans ==> c in s.conns && GoodChan(s.chans[c], c, s.conns[c], s.routes, s.fates)
  }

  // ---- fates ----

  /** What can become of a dispatch, by the packet's type. */
  predicate GoodFate(rt: Route, fate: Fate) {
    match fate
    case Accepted => true
    case DroppedFull => rt.header.packetType.AiEvent? || rt.header.packetType.Heartbeat?
    case RetryPending(packet, _) => rt.header.packetType.SystemCmd? && packet == rt.raw
    case RetryFailed => rt.header.packetType.SystemCmd?
  }

  ghost predicate GoodFates(fates: Fates, routes: Routes, unregs: map<Owner, Unreg>) {
    forall t, c :: (t, c) in fates ==>
      && t in routes && GoodFate(routes[t], fates[(t, c)])
      && (fates[(t, c)].RetryFailed? ==> ByRetry(t, c) in unregs)
  }

  ghost predicate Delivered(s: State) {
    AllTransparent(s.routes) && GoodChans(s) && GoodFates(s.fates, s.routes, s.unregs)
  }

  // ---- one channel ----

  lemma GoodChanKept(ch: Chan<Item>, c: ConnId, conn: Conn, routes: Routes, fates: Fates,
                     conn': Conn, routes': Routes, fates': Fates)
    requires GoodChan(ch, c, conn, routes, fates)
    requires RoutesKept(routes, routes') && conn'.room == conn.room && conn'.user == conn.user
    requires forall t :: IsAccepted(fates, t, c) <==> IsAccepted(fates', t, c)
    ensures GoodChan(ch, c, conn', routes', fates')
  {
  }

  lemma HasItemAfterAccept(ch: Chan<Item>, ch': Chan<Item>, item: Item, t: RouteId)
    requires ch'.accepted == ch.accepted + [item]
    ensures HasItemOf(ch', t) <==> HasItemOf(ch, t) || t == item.route
  {
    assert ch'.accepted[|ch.accepted|] == item;
    if HasItemOf(ch, t) {
      var i :| 0 <= i < |ch.accepted| && ch.accepted[i].route == t;
      assert ch'.accepted[i].route == t;
    }
  }

  lemma AcceptKeepsItems(ch: Chan<Item>, ch': Chan<Item>, routes: Routes, conn: Conn, item: Item)
    requires GoodItems(ch, routes, conn) && AtMostOnce(ch) && GoodItem(item, routes, conn) && !HasItemOf(ch, item.route)
    requires ch'.accepted == ch.accepted + [item]
    ensures GoodItems(ch', routes, conn) && AtMostOnce(ch')
  {
  }

  lemma AcceptKeepsEvictions(ch: Chan<Item>, routes: Routes, item: Item)
    requires EvictedByMotion(ch, routes) && item.route in routes
    ensures EvictedByMotion(Apply(ch, Policy(routes[item.route].header.packetType, item)), routes)
  {
  }

  /** Sending the item of a call that the channel does not hold yet. */
  lemma SendKeepsGoodChan(ch: Chan<Item>, c: ConnId, conn: Conn, routes: Routes, fates: Fates, item: Item, fate: Fate)
    requires GoodChan(ch, c, conn, routes, fates) && GoodItem(item, routes, conn) && !IsAccepted(fates, item.route, c)
    requires fate.Accepted? <==> routes[item.route].header.packetType.RawMotion? || !ch.Full()
    ensures var op := Policy(routes[item.route].header.packetType, item);
      GoodChan(Apply(ch, op), c, conn, routes, fates[(item.route, c) := fate])
  {
    var op := Policy(routes[item.route].header.packetType, item);
    var (ch', fates') := (Apply(ch, op), fates[(item.route, c) := fate]);
    if fate.Accepted? {
      StepAccounted(ch, op);
      AcceptKeepsItems(ch, ch', routes, conn, item);
      AcceptKeepsEvictions(ch, routes, item);
      forall t ensures HasItemOf(ch', t) <==> IsAccepted(fates', t, c) {
        HasItemAfterAccept(ch, ch', item, t);
      }
    } else {
      GoodChanKept(ch, c, conn, routes, fates, conn, routes, fates');
    }
  }

  lemma ReceiveKeepsGoodChan(ch: Chan<Item>, c: ConnId, conn: Conn, routes: Routes, fates: Fates)
    requires GoodChan(ch, c, conn, routes, fates)
    ensures GoodChan(Apply(ch, ReceiveOp), c, conn, routes, fates)
  {
    StepAccounted(ch, ReceiveOp);
    assert Apply(ch, ReceiveOp).accepted == ch.accepted;
    forall t ensures HasItemOf(Apply(ch, ReceiveOp), t) <==> IsAccepted(fates, t, c) {
      assert HasItemOf(ch, t) <==> IsAccepted(fates, t, c);
    }
  }

  // ---- one step ----

  lemma ChansKept(s: State, s': State, c: ConnId)
    requires GoodChans(s) && RoutesKept(s.routes, s'.routes) && KeysKept(s.conns, s'.conns)
    requires s'.chans.Keys == s.chans.Keys && forall d :: d in s.chans && d != c ==> s'.chans[d] == s.chans[d]
    requires forall t, d :: d != c ==> (IsAccepted(s.fates, t, d) <==> IsAccepted(s'.fates, t, d))
    requires c in s.chans ==> GoodChan(s'.chans[c], c, s'.conns[c], s'.routes, s'.fates)
    ensures GoodChans(s')
  {
    forall d | d in s'.chans ensures d in s'.conns && GoodChan(s'.chans[d], d, s'.conns[d], s'.routes, s'.fates) {
      if d != c {
        GoodChanKept(s.chans[d], d, s.conns[d], s.routes, s.fates, s'.conns[d], s'.routes, s'.fates);
      }
    }
  }

  /** Steps that touch no channel and no fate. */
  lemma QuietStepKeepsDelivered(s: State, s': State)
    requires Delivered(s) && RoutesKept(s.routes, s'.routes) && AllTransparent(s'.routes)
    requires KeysKept(s.conns, s'.conns) && s'.chans == s.chans && s'.fates == s.fates
    requires s.unregs.Keys <= s'.unregs.Keys
    ensures Delivered(s')
  {
    forall d | d in s'.chans ensures d in s'.conns && GoodChan(s'.chans[d], d, s'.conns[d], s'.routes, s'.fates) {
      GoodChanKept(s.chans[d], d, s.conns[d], s.routes, s.fates, s'.conns[d], s'.routes, s'.fates);
    }
  }

  lemma NewChanIsGood(c: ConnId, conn: Conn, routes: Routes, fates: Fates)
    requires forall t :: !IsAccepted(fates, t, c)
    ensures GoodChan(NewChan(WS_CHANNEL_CAPACITY), c, conn, routes, fates)
  {
  }

  lemma ConnectKeepsDelivered(s: State, step: HandlerStep)
    requires Books(s) && Delivered(s) && HandlerEnabled(s, step) && step.Connect?
    ensures Delivered(HandlerEffect(s, step))
  {
    var (c, s') := (step.conn, HandlerEffect(s, step));
    NewChanIsGood(c, s'.conns[c], s'.routes, s'.fates);
    forall d | d in s'.chans ensures d in s'.conns && GoodChan(s'.chans[d], d, s'.conns[d], s'.routes, s'.fates) {
      if d != c {
        assert s'.chans[d] == s.chans[d];
      }
    }
  }

  lemma HandlerKeepsDelivered(s: State, step: HandlerStep)
    requires Books(s) && Delivered(s) && HandlerEnabled(s, step)
    ensures Delivered(HandlerEffect(s, step))
  {
    if step.Connect? {
      ConnectKeepsDelivered(s, step);
    } else {
      QuietStepKeepsDelivered(s, HandlerEffect(s, step));
    }
  }

  lemma DispatchKeepsDelivered(s: State, t: RouteId, target: ConnTarget)
    requires Delivered(s) && t in s.routes && target.conn in s.chans
    requires target.conn in s.conns && Addressed(s.routes[t], s.conns[target.conn]) && (t, target.conn) !in s.fates
    ensures Delivered(Dispatch(s, t, target))
  {
    var (c, s') := (target.conn, Dispatch(s, t, target));
    var rt := s.routes[t];
    assert Transparent(rt);
    var item := Item(rt.raw, t);
    var fate := FateOf(rt.header.packetType, s.chans[c].Full(), rt.raw, target.user);
    SendKeepsGoodChan(s.chans[c], c, s.conns[c], s.routes, s.fates, item, fate);
    ChansKept(s, s', c);
  }

  lemma SetRouteKeepsDelivered(s: State, t: RouteId, phase: RoutePhase)
    requires Delivered(s) && t in s.routes
    ensures Delivered(SetRoute(s, t, phase))
  {
    assert Transparent(s.routes[t]);
    QuietStepKeepsDelivered(s, SetRoute(s, t, phase));
  }

  lemma SendKeepsDelivered(s: State, step: SendStep)
    requires Books(s) && Delivered(s) && SendEnabled(s, step)
    ensures Delivered(SendEffect(s, step))
  {
    var (t, target) := (step.route, SendTarget(s, step));
    var phase := SendEffect(s, step).routes[t].phase;
    if target.Some? {
      SendTargetIsNew(s, step);
      assert (t, target.value.conn) !in s.fates;
      DispatchKeepsDelivered(s, t, target.value);
      SetRouteKeepsDelivered(Dispatch(s, t, target.value), t, phase);
    } else {
      SetRouteKeepsDelivered(s, t, phase);
    }
  }

  lemma RetryKeepsDelivered(s: State, step: QueueStep)
    requires Books(s) && Delivered(s) && QueueEnabled(s, step) && step.RetrySucceed?
    ensures Delivered(QueueEffect(s, step))
  {
    var (t, c, s') := (step.route, step.conn, QueueEffect(s, step));
    var item := Item(s.routes[t].raw, t);
    assert s.fates[(t, c)].packet == s.routes[t].raw;
    SendKeepsGoodChan(s.chans[c], c, s.conns[c], s.routes, s.fates, item, Accepted);
    ChansKept(s, s', c);
  }

  lemma GiveUpKeepsFates(s: State, step: QueueStep)
    requires GoodFates(s.fates, s.routes, s.unregs) && QueueEnabled(s, step) && step.RetryGiveUp?
    ensures var s' := QueueEffect(s, step); GoodFates(s'.fates, s'.routes, s'.unregs)
  {
  }

  lemma GiveUpKeepsChans(s: State, step: QueueStep)
    requires s.conns.Keys == s.chans.Keys && GoodChans(s) && QueueEnabled(s, step) && step.RetryGiveUp?
    ensures GoodChans(QueueEffect(s, step))
  {
    var (c, s') := (step.conn, QueueEffect(s, step));
    GoodChanKept(s.chans[c], c, s.conns[c], s.routes, s.fates, s'.conns[c], s'.routes, s'.fates);
    ChansKept(s, s', c);
  }

  lemma GiveUpKeepsDelivered(s: State, step: QueueStep)
    requires Books(s) && Delivered(s) && QueueEnabled(s, step) && step.RetryGiveUp?
    ensures Delivered(QueueEffect(s, step))
  {
    GiveUpKeepsFates(s, step);
    GiveUpKeepsChans(s, step);
  }

  lemma ReceiveKeepsDelivered(s: State, step: QueueStep)
    requires Books(s) && Delivered(s) && QueueEnabled(s, step) && step.ReceiveItem?
    ensures Delivered(QueueEffect(s, step))
  {
    var c := step.conn;
    ReceiveKeepsGoodChan(s.chans[c], c, s.conns[c], s.routes, s.fates);
    ChansKept(s, QueueEffect(s, step), c);
  }

  lemma ArriveKeepsDelivered(s: State, step: Step)
    requires Delivered(s) && Enabled(s, step) && step.Arrive?
    ensures Delivered(Next(s, step))
  {
    EncodeOfDecode(step.raw);
    QuietStepKeepsDelivered(s, Next(s, step));
  }

  lemma ScanKeepsDelivered(s: State, step: ScanStep)
    requires Delivered(s) && ScanEnabled(s, step)
    ensures Delivered(ScanEffect(s, step))
  {
    SetRouteKeepsDelivered(s, step.route, ScanEffect(s, step).routes[step.route].phase);
  }

  lemma UnregKeepsDelivered(s: State, step: UnregStep)
    requires Delivered(s) && UnregEnabled(s, step)
    ensures Delivered(UnregEffect(s, step))
  {
  }

  lemma NextKeepsDelivered(s: State, step: Step)
    requires Books(s) && Delivered(s)
    ensures Delivered(Next(s, step))
  {
    if Enabled(s, step) {
      match step
      case Handler(handler) => HandlerKeepsDelivered(s, handler);
      case Unregister(unregister) => UnregKeepsDelivered(s, unregister);
      case Scan(scan) => ScanKeepsDelivered(s, scan);
      case Send(send) => SendKeepsDelivered(s, send);
      case Queue(queue) =>
        if queue.RetrySucceed? {
          RetryKeepsDelivered(s, queue);
        } else if queue.RetryGiveUp? {
          GiveUpKeepsDelivered(s, queue);
        } else {
          ReceiveKeepsDelivered(s, queue);
        }
      case Arrive(_, _) => ArriveKeepsDelivered(s, step);
    }
  }
}
