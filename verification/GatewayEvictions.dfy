/** Exactly when a packet that a connection's channel has accepted is lost. */
module GatewayEvictions {
  import opened GatewayProtocol
  import opened Channel
  import opened Backpressure
  import opened Gateway
  import opened GatewayDelivery
  import opened GatewayRuns

  /** The step dispatches RawMotion to a full channel, whose front item is number i. */
  predicate Evicts(s: State, step: Step, c: ConnId, i: int) {
    && step.Send? && SendEnabled(s, step.send) && c in s.chans
    && SendTarget(s, step.send).Some? && SendTarget(s, step.send).value.conn == c
    && s.routes[step.send.route].header.packetType.RawMotion?
    && |s.chans[c].queue| == WS_CHANNEL_CAPACITY && i == s.chans[c].Head()
  }

  lemma ApplyEvicts(ch: Chan<Item>, packetType: PacketType, item: Item, i: int)
    requires Accounted(ch) && ch.capacity == WS_CHANNEL_CAPACITY
    ensures var ch' := Apply(ch, Policy(packetType, item));
      && (i in ch.evictedBy ==> i in ch'.evictedBy)
      && (i !in ch.evictedBy && i in ch'.evictedBy
          <==> packetType.RawMotion? && |ch.queue| == WS_CHANNEL_CAPACITY && i == ch.Head())
  {
  }

  /** Item i was accepted, and evicted before it was received. */
  predicate Evicted(s: State, c: ConnId, i: int) {
    c in s.chans && i in s.chans[c].evictedBy
  }

  lemma SendEvicts(s: State, step: SendStep, c: ConnId, i: int)
    requires SendEnabled(s, step)
    requires c in s.chans ==> Accounted(s.chans[c]) && s.chans[c].capacity == WS_CHANNEL_CAPACITY
    ensures var s' := SendEffect(s, step);
      && (Evicted(s, c, i) ==> Evicted(s', c, i))
      && (!Evicted(s, c, i) && Evicted(s', c, i) <==> Evicts(s, Send(step), c, i))
  {
    var (t, target) := (step.route, SendTarget(s, step));
    if target.Some? && target.value.conn == c && c in s.chans {
      var rt := s.routes[t];
      ApplyEvicts(s.chans[c], rt.header.packetType, Item(Encode(rt.header, rt.payload), t), i);
    }
  }

  lemma HandlerEvictsNone(s: State, step: HandlerStep, c: ConnId, i: int)
    requires s.chans.Keys == s.conns.Keys && HandlerEnabled(s, step)
    ensures Evicted(HandlerEffect(s, step), c, i) <==> Evicted(s, c, i)
  {
  }

  lemma UnregEvictsNone(s: State, step: UnregStep, c: ConnId, i: int)
    requires UnregEnabled(s, step)
    ensures Evicted(UnregEffect(s, step), c, i) <==> Evicted(s, c, i)
  {
  }

  lemma ScanEvictsNone(s: State, step: ScanStep, c: ConnId, i: int)
    requires ScanEnabled(s, step)
    ensures Evicted(ScanEffect(s, step), c, i) <==> Evicted(s, c, i)
  {
  }

  lemma QueueEvictsNone(s: State, step: QueueStep, c: ConnId, i: int)
    requires QueueEnabled(s, step)
    ensures Evicted(QueueEffect(s, step), c, i) <==> Evicted(s, c, i)
  {
  }

  /**
   * A step makes an item of a channel lost if and only if it dispatches RawMotion to the full
   * channel and the item is the front one.
   */
  lemma EvictsExactly(s: State, step: Step, c: ConnId, i: int)
    requires Reachable(s)
    ensures var s' := Next(s, step);
      (Evicted(s, c, i) ==> Evicted(s', c, i)) && (!Evicted(s, c, i) && Evicted(s', c, i) <==> Evicts(s, step, c, i))
  {
    ReachableDelivered(s);
    assert c in s.chans ==> GoodChan(s.chans[c], c, s.conns[c], s.routes, s.fates);
    if Enabled(s, step) {
      match step
      case Handler(handler) => HandlerEvictsNone(s, handler, c, i);
      case Unregister(unregister) => UnregEvictsNone(s, unregister, c, i);
      case Scan(scan) => ScanEvictsNone(s, scan, c, i);
      case Send(send) => SendEvicts(s, send, c, i);
      case Queue(queue) => QueueEvictsNone(s, queue, c, i);
      case Arrive(_, _) =>
    }
  }

  ghost predicate EvictedAt(steps: seq<Step>, k: int, c: ConnId, i: int) {
    0 <= k < |steps| && Evicts(Exec(INIT, steps[..k]), steps[k], c, i)
  }

  /** Over a whole run: an item is lost if and only if one of the run's steps was such a dispatch. */
  lemma {:induction false} LostExactly(steps: seq<Step>, c: ConnId, i: int)
    ensures Evicted(Exec(INIT, steps), c, i) <==> exists k :: EvictedAt(steps, k, c, i)
    decreases |steps|
  {
    if steps == [] {
    } else {
      var n := |steps| - 1;
      var s := Exec(INIT, steps[..n]);
      assert Reachable(s);
      LostExactly(steps[..n], c, i);
      EvictsExactly(s, steps[n], c, i);
      assert forall k :: 0 <= k < n ==> steps[..n][..k] == steps[..k];
      assert forall k :: k != n ==> (EvictedAt(steps, k, c, i) <==> EvictedAt(steps[..n], k, c, i));
      assert EvictedAt(steps, n, c, i) <==> Evicts(s, steps[n], c, i);
      assert !EvictedAt(steps[..n], n, c, i);
    }
  }
}
