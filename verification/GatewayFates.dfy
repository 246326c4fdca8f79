/** Exactly which step settles the fate of a packet for a connection, and what retries and receipts do. */
module GatewayFates {
  import opened Channel
  import opened Gateway
  import opened GatewayKeys
  import opened GatewayLog
  import opened GatewayDelivery
  import opened GatewayRuns
  import opened GatewayWire
  import opened GatewayService

  predicate IsPending(s: State, t: RouteId, c: ConnId) {
    (t, c) in s.fates && s.fates[(t, c)].RetryPending?
  }

  predicate HasFate(s: State, t: RouteId, c: ConnId, fate: Fate) {
    (t, c) in s.fates && s.fates[(t, c)] == fate
  }

  lemma ReachableChan(s: State, c: ConnId)
    requires Reachable(s) && c in s.chans
    ensures Accounted(s.chans[c]) && s.chans[c].capacity == WS_CHANNEL_CAPACITY
    ensures |s.chans[c].queue| <= 64 && |s.chans[c].queue| <= |s.chans[c].accepted|
  {
    ReachableDelivered(s);
    assert GoodChan(s.chans[c], c, s.conns[c], s.routes, s.fates);
  }

  // ---- retries and receipts ----

  lemma ReachableRetry(s: State, t: RouteId, c: ConnId)
    requires Reachable(s) && IsPending(s, t, c)
    ensures t in s.routes && c in s.chans && c in s.conns
  {
    ReachableInv(s);
  }

  /** An attempt of a pending retry succeeds exactly if the queue has room, and fails exactly if it is full. */
  lemma RetriesExactly(s: State, t: RouteId, c: ConnId)
    requires Reachable(s)
    ensures QueueEnabled(s, RetrySucceed(t, c)) <==> IsPending(s, t, c) && c in s.chans && |s.chans[c].queue| < 64
    ensures QueueEnabled(s, RetryGiveUp(t, c)) <==> IsPending(s, t, c) && c in s.chans && |s.chans[c].queue| == 64
  {
    if IsPending(s, t, c) {
      ReachableRetry(s, t, c);
      ReachableChan(s, c);
    }
  }

  /** A successful retry adds the buffer that arrived to the back of the queue, and changes no other channel. */
  lemma RetryTakesIn(s: State, t: RouteId, c: ConnId)
    requires Reachable(s) && QueueEnabled(s, RetrySucceed(t, c))
    ensures
      var s' := Next(s, Queue(RetrySucceed(t, c)));
      && t in s.routes && s'.chans.Keys == s.chans.Keys
      && s'.chans[c].queue == s.chans[c].queue + [Item(s.routes[t].raw, t)]
      && s'.chans[c].accepted == s.chans[c].accepted + [Item(s.routes[t].raw, t)]
      && (forall d :: d in s.chans && d != c ==> s'.chans[d] == s.chans[d])
      && HasFate(s', t, c, Accepted) && s'.rooms == s.rooms && s'.unregs == s.unregs
  {
    ReachableDelivered(s);
  }

  lemma GiveUpEffect(s: State, t: RouteId, c: ConnId)
    requires Books(s) && QueueEnabled(s, RetryGiveUp(t, c))
    ensures
      var s' := QueueEffect(s, RetryGiveUp(t, c));
      && s'.chans == s.chans && HasFate(s', t, c, RetryFailed) && s'.rooms == s.rooms
      && c in s.conns && ByRetry(t, c) !in s.unregs
      && s'.unregs == s.unregs[ByRetry(t, c) := Unreg(s.conns[c].room, s.conns[c].user, Waiting)]
  {
    assert Addressed(s.routes[t], s.conns[c]);
  }

  /** A failed retry leaves the channels alone and starts to unregister its connection. */
  lemma GivingUpUnregisters(s: State, t: RouteId, c: ConnId)
    requires Reachable(s) && QueueEnabled(s, RetryGiveUp(t, c))
    ensures
      var s' := Next(s, Queue(RetryGiveUp(t, c)));
      && s'.chans == s.chans && HasFate(s', t, c, RetryFailed) && s'.rooms == s.rooms
      && c in s.conns && ByRetry(t, c) !in s.unregs
      && s'.unregs == s.unregs[ByRetry(t, c) := Unreg(s.conns[c].room, s.conns[c].user, Waiting)]
  {
    ReachableInv(s);
    GiveUpEffect(s, t, c);
  }

  /** A serving handler can receive exactly if something is queued; it gets the front item, which leaves the queue. */
  lemma ReceivesTheFront(s: State, c: ConnId)
    requires Reachable(s)
    ensures QueueEnabled(s, ReceiveItem(c)) <==> ConnIn(s, c, Serving) && s.chans[c].queue != []
    ensures QueueEnabled(s, ReceiveItem(c)) ==>
      var (ch, s') := (s.chans[c], Next(s, Queue(ReceiveItem(c))));
      && s'.chans.Keys == s.chans.Keys && (forall d :: d in s.chans && d != c ==> s'.chans[d] == s.chans[d])
      && s'.chans[c].queue == ch.queue[1..] && s'.chans[c].received == ch.received + [ch.Head()]
      && ch.Head() >= 0 && ch.accepted[ch.Head()] == ch.queue[0]
  {
    if c in s.chans {
      ReachableChan(s, c);
    }
  }

  // ---- fates ----

  predicate DispatchesTo(s: State, step: Step, t: RouteId, c: ConnId) {
    && step.Send? && SendEnabled(s, step.send) && step.send.route == t
    && SendTarget(s, step.send).Some? && SendTarget(s, step.send).value.conn == c
  }

  /** The step gives the packet this fate, told by byte 1 of the packet and the length of the queue. */
  predicate Settles(s: State, step: Step, t: RouteId, c: ConnId, fate: Fate) {
    && t in s.routes && |s.routes[t].raw| >= 24 && c in s.chans
    && var (code, n) := (s.routes[t].raw[1], |s.chans[c].queue|);
       match fate
       case Accepted =>
         || (DispatchesTo(s, step, t, c) && (n < 64 || code == 1))
         || (step == Queue(RetrySucceed(t, c)) && IsPending(s, t, c) && n < 64)
       case DroppedFull => DispatchesTo(s, step, t, c) && n == 64 && (code == 2 || code == 4)
       case RetryPending(_, _) => DispatchesTo(s, step, t, c) && n == 64 && code == 3
       case RetryFailed => step == Queue(RetryGiveUp(t, c)) && IsPending(s, t, c) && n == 64
  }

  /** A dispatch gives its target, which had none, the fate that byte 1 and the queue decide. */
  lemma DispatchFate(s: State, step: SendStep)
    requires Reachable(s) && SendEnabled(s, step) && SendTarget(s, step).Some?
    ensures
      var (t, target, s') := (step.route, SendTarget(s, step).value, SendEffect(s, step));
      && target.conn in s.chans && (t, target.conn) !in s.fates && |s.routes[t].raw| >= 24
      && |s.chans[target.conn].queue| <= 64
      && var (code, n) := (s.routes[t].raw[1], |s.chans[target.conn].queue|);
         && 1 <= code <= 4
         && HasFate(s', t, target.conn,
                    if n < 64 || code == 1 then Accepted
                    else if code == 3 then RetryPending(s.routes[t].raw, target.user) else DroppedFull)
  {
    ReachableInv(s);
    SendTargetIsNew(s, step);
    CallsOnTheWire(s, step.route);
    WireCodes(s.routes[step.route].raw);
    DispatchOutcome(s, step);
    ReachableChan(s, SendTarget(s, step).value.conn);
  }

  lemma SendSettles(s: State, step: SendStep, t: RouteId, c: ConnId, fate: Fate)
    requires Reachable(s) && SendEnabled(s, step) && !fate.RetryPending?
    ensures HasFate(s, t, c, fate) ==> HasFate(SendEffect(s, step), t, c, fate)
    ensures !HasFate(s, t, c, fate) && HasFate(SendEffect(s, step), t, c, fate) <==> Settles(s, Send(step), t, c, fate)
  {
    if DispatchesTo(s, Send(step), t, c) {
      DispatchFate(s, step);
    } else {
      OtherFatesStay(s, step, t, c);
    }
  }

  lemma OtherFatesStay(s: State, step: SendStep, t: RouteId, c: ConnId)
    requires SendEnabled(s, step) && !DispatchesTo(s, Send(step), t, c)
    ensures (t, c) in SendEffect(s, step).fates <==> (t, c) in s.fates
    ensures (t, c) in s.fates ==> SendEffect(s, step).fates[(t, c)] == s.fates[(t, c)]
  {
  }

  lemma QueueFates(s: State, step: QueueStep, t: RouteId, c: ConnId)
    requires QueueEnabled(s, step)
    ensures
      var s' := QueueEffect(s, step);
      if !step.ReceiveItem? && step.route == t && step.conn == c then
        HasFate(s', t, c, if step.RetrySucceed? then Accepted else RetryFailed)
      else
        ((t, c) in s'.fates <==> (t, c) in s.fates) && ((t, c) in s.fates ==> s'.fates[(t, c)] == s.fates[(t, c)])
  {
  }

  lemma QueueSettles(s: State, step: QueueStep, t: RouteId, c: ConnId, fate: Fate)
    requires Reachable(s) && QueueEnabled(s, step) && !fate.RetryPending?
    ensures HasFate(s, t, c, fate) ==> HasFate(QueueEffect(s, step), t, c, fate)
    ensures !HasFate(s, t, c, fate) && HasFate(QueueEffect(s, step), t, c, fate)
            <==> Settles(s, Queue(step), t, c, fate)
  {
    QueueFates(s, step, t, c);
    if !step.ReceiveItem? {
      RetriesExactly(s, step.route, step.conn);
      CallsOnTheWire(s, step.route);
      WireCodes(s.routes[step.route].raw);
    }
  }

  lemma HandlerSettlesNone(s: State, step: HandlerStep)
    requires HandlerEnabled(s, step)
    ensures HandlerEffect(s, step).fates == s.fates
  {
  }

  lemma UnregSettlesNone(s: State, step: UnregStep)
    requires UnregEnabled(s, step)
    ensures UnregEffect(s, step).fates == s.fates
  {
  }

  lemma ScanSettlesNone(s: State, step: ScanStep)
    requires ScanEnabled(s, step)
    ensures ScanEffect(s, step).fates == s.fates
  {
  }

  lemma RestSettlesNone(s: State, step: Step)
    requires Enabled(s, step) && !step.Send? && !step.Queue?
    ensures Next(s, step).fates == s.fates
  {
    match step
    case Handler(handler) => HandlerSettlesNone(s, handler);
    case Unregister(unregister) => UnregSettlesNone(s, unregister);
    case Scan(scan) => ScanSettlesNone(s, scan);
    case Arrive(_, _) =>
  }

  lemma DisabledSettlesNone(s: State, step: Step, t: RouteId, c: ConnId, fate: Fate)
    requires Reachable(s) && !Enabled(s, step)
    ensures !Settles(s, step, t, c, fate)
  {
    RetriesExactly(s, t, c);
  }

  /** Final fates stay, and each is given by exactly the steps that settle it. */
  lemma SettledExactly(s: State, step: Step, t: RouteId, c: ConnId, fate: Fate)
    requires Reachable(s) && !fate.RetryPending?
    ensures HasFate(s, t, c, fate) ==> HasFate(Next(s, step), t, c, fate)
    ensures !HasFate(s, t, c, fate) && HasFate(Next(s, step), t, c, fate) <==> Settles(s, step, t, c, fate)
  {
    if !Enabled(s, step) {
      DisabledSettlesNone(s, step, t, c, fate);
    } else if step.Send? {
      SendSettles(s, step.send, t, c, fate);
    } else if step.Queue? {
      QueueSettles(s, step.queue, t, c, fate);
    } else {
      RestSettlesNone(s, step);
    }
  }

  ghost predicate SettledAt(steps: seq<Step>, k: int, t: RouteId, c: ConnId, fate: Fate) {
    0 <= k < |steps| && Settles(Exec(INIT, steps[..k]), steps[k], t, c, fate)
  }

  ghost predicate SettledBefore(steps: seq<Step>, m: nat, t: RouteId, c: ConnId, fate: Fate) {
    exists k :: k < m && SettledAt(steps, k, t, c, fate)
  }

  lemma OneMoreSettled(steps: seq<Step>, m: nat, t: RouteId, c: ConnId, fate: Fate)
    ensures SettledBefore(steps, m + 1, t, c, fate) <==>
            SettledBefore(steps, m, t, c, fate) || SettledAt(steps, m, t, c, fate)
  {
  }

  lemma SettledNext(steps: seq<Step>, m: nat, t: RouteId, c: ConnId, fate: Fate)
    requires m < |steps| && !fate.RetryPending?
    ensures HasFate(Exec(INIT, steps[..m + 1]), t, c, fate) <==>
            HasFate(Exec(INIT, steps[..m]), t, c, fate) || SettledAt(steps, m, t, c, fate)
  {
    ExecStep(steps, m);
    assert Reachable(Exec(INIT, steps[..m]));
    SettledExactly(Exec(INIT, steps[..m]), steps[m], t, c, fate);
  }

  lemma {:induction false} SettledSoFar(steps: seq<Step>, m: nat, t: RouteId, c: ConnId, fate: Fate)
    requires m <= |steps| && !fate.RetryPending?
    ensures HasFate(Exec(INIT, steps[..m]), t, c, fate) <==> SettledBefore(steps, m, t, c, fate)
    decreases m
  {
    if m == 0 {
    } else {
      SettledSoFar(steps, m - 1, t, c, fate);
      SettledNext(steps, m - 1, t, c, fate);
      OneMoreSettled(steps, m - 1, t, c, fate);
    }
  }

  /**
   * Over a whole run: a packet was accepted, dropped or failed for a connection if and only if one
   * of the steps settled that. A retry fails only at an attempt that meets 64 queued packets.
   */
  lemma FatesSettledExactly(steps: seq<Step>, t: RouteId, c: ConnId, fate: Fate)
    requires !fate.RetryPending?
    ensures HasFate(Exec(INIT, steps), t, c, fate) <==> exists k :: SettledAt(steps, k, t, c, fate)
  {
    SettledSoFar(steps, |steps|, t, c, fate);
    assert steps[..|steps|] == steps;
  }
}
