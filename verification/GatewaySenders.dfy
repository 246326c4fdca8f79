/**
 * The count of a channel's senders, which recv reads, is exact in every run: it is the number of
 * senders that handlers, registry, snapshots and retry tasks hold.
 */
module GatewaySenders {
  import opened GatewayProtocol
  import opened Registry
  import opened Gateway
  import opened GatewayKeys
  import opened GatewayRegistry
  import opened GatewayLog

  /** Where a sender of a channel can be: with its handler, in the registry, in a snapshot or with a retry task. */
  datatype Holder =
    | InHandler
    | InEntry(room: Id, user: Id)
    | InSnapshot(route: RouteId, index: int)
    | InRetry(route: RouteId)

  predicate SnapshotHolds(rt: Route, i: int, c: ConnId) {
    match rt.phase
    case Scanning(_, seen) => 0 <= i < |seen| && seen[i].conn == c
    case Sending(_, _, targets, next) => next <= i < |targets| && targets[i].conn == c
    case _ => false
  }

  /** A retry task lives until it has sent, or until its unregister is done. */
  predicate RetryHolds(s: State, t: RouteId, c: ConnId) {
    || ((t, c) in s.fates && s.fates[(t, c)].RetryPending?)
    || (ByRetry(t, c) in s.unregs && !s.unregs[ByRetry(t, c)].phase.Done?)
  }

  predicate Holds(s: State, h: Holder, c: ConnId) {
    match h
    case InHandler => c in s.conns && (s.conns[c].phase.Opening? || s.conns[c].phase.Entering?)
    case InEntry(room, user) => Registered(s.rooms, room, user) && s.rooms[room][user] == c
    case InSnapshot(t, i) => t in s.routes && SnapshotHolds(s.routes[t], i, c)
    case InRetry(t) => RetryHolds(s, t, c)
  }

  /** No sender of the channel is alive anywhere. */
  ghost predicate NoSender(s: State, c: ConnId) {
    forall h :: !Holds(s, h, c)
  }

  ghost predicate AreHolders(s: State, c: ConnId, hs: set<Holder>) {
    forall h :: h in hs <==> Holds(s, h, c)
  }

  ghost predicate CountIs(s: State, c: ConnId) {
    c in s.senders && exists hs: set<Holder> :: AreHolders(s, c, hs) && |hs| == s.senders[c]
  }

  ghost predicate Counted(s: State) {
    s.senders.Keys == s.conns.Keys && forall c :: c in s.conns ==> CountIs(s, c)
  }

  // ---- what one step does to the holders of one channel ----

  /** The holders that go and those that come decide who holds a sender afterwards. */
  predicate MovesHolder(s: State, s': State, c: ConnId, gone: set<Holder>, come: set<Holder>, h: Holder) {
    && (h in gone ==> Holds(s, h, c))
    && (h in come ==> !Holds(s, h, c))
    && (Holds(s', h, c) <==> h in come || (Holds(s, h, c) && h !in gone))
  }

  /** The count follows the holders. */
  predicate MovesCount(s: State, s': State, c: ConnId, gone: set<Holder>, come: set<Holder>) {
    c in s.senders ==> c in s'.senders && s'.senders[c] == s.senders[c] - |gone| + |come|
  }

  ghost predicate Moves(s: State, s': State, c: ConnId, gone: set<Holder>, come: set<Holder>) {
    (forall h :: MovesHolder(s, s', c, gone, come, h)) && MovesCount(s, s', c, gone, come)
  }

  function EntryOf(s: State, room: Id, user: Id, c: ConnId): set<Holder> {
    if Registered(s.rooms, room, user) && s.rooms[room][user] == c then {InEntry(room, user)} else {}
  }

  // handlers

  function HandlerGone(s: State, step: HandlerStep, c: ConnId): set<Holder>
    requires HandlerEnabled(s, step)
  {
    if !step.InsertSelf? then {}
    else if c == step.conn then {InHandler}
    else EntryOf(s, s.conns[step.conn].room, s.conns[step.conn].user, c)
  }

  function HandlerCome(s: State, step: HandlerStep, c: ConnId): set<Holder>
    requires HandlerEnabled(s, step)
  {
    if c != step.conn then {}
    else if step.Connect? then {InHandler}
    else if step.InsertSelf? then {InEntry(s.conns[c].room, s.conns[c].user)}
    else {}
  }

  lemma InsertMovesHolder(s: State, d: ConnId, c: ConnId, h: Holder)
    requires EntriesLive(s.rooms, s.conns, s.unregs) && HandlerEnabled(s, InsertSelf(d))
    requires s.conns[d].room in s.rooms
    ensures var step := InsertSelf(d);
      MovesHolder(s, HandlerEffect(s, step), c, HandlerGone(s, step, c), HandlerCome(s, step, c), h)
  {
  }

  lemma HandlerMovesHolder(s: State, step: HandlerStep, c: ConnId, h: Holder)
    requires EntriesLive(s.rooms, s.conns, s.unregs) && HandlerEnabled(s, step)
    requires step.InsertSelf? ==> s.conns[step.conn].room in s.rooms
    ensures MovesHolder(s, HandlerEffect(s, step), c, HandlerGone(s, step, c), HandlerCome(s, step, c), h)
  {
    if step.InsertSelf? {
      InsertMovesHolder(s, step.conn, c, h);
    }
  }

  lemma HandlerMoves(s: State, step: HandlerStep, c: ConnId)
    requires EntriesLive(s.rooms, s.conns, s.unregs) && HandlerEnabled(s, step)
    requires step.InsertSelf? ==> s.conns[step.conn].room in s.rooms
    requires step.Connect? ==> step.conn !in s.senders
    ensures Moves(s, HandlerEffect(s, step), c, HandlerGone(s, step, c), HandlerCome(s, step, c))
  {
    forall h ensures MovesHolder(s, HandlerEffect(s, step), c, HandlerGone(s, step, c), HandlerCome(s, step, c), h) {
      HandlerMovesHolder(s, step, c, h);
    }
  }

  // unregistrations

  function UnregGone(s: State, step: UnregStep, c: ConnId): set<Holder>
    requires UnregEnabled(s, step)
  {
    var (o, un) := (step.owner, s.unregs[step.owner]);
    if step.Erase? then EntryOf(s, un.room, un.user, c)
    else if o.ByRetry? && o.conn == c && UnregEffect(s, step).unregs[o].phase.Done? then {InRetry(o.route)}
    else {}
  }

  lemma UnregMovesHolder(s: State, step: UnregStep, c: ConnId, h: Holder)
    requires OwnersDone(s.unregs, s.conns, s.fates) && UnregEnabled(s, step)
    ensures MovesHolder(s, UnregEffect(s, step), c, UnregGone(s, step, c), {}, h)
  {
  }

  lemma UnregMoves(s: State, step: UnregStep, c: ConnId)
    requires OwnersDone(s.unregs, s.conns, s.fates) && UnregEnabled(s, step)
    ensures Moves(s, UnregEffect(s, step), c, UnregGone(s, step, c), {})
  {
    forall h ensures MovesHolder(s, UnregEffect(s, step), c, UnregGone(s, step, c), {}, h) {
      UnregMovesHolder(s, step, c, h);
    }
  }

  // scans

  function ScanCome(s: State, step: ScanStep, c: ConnId): set<Holder>
    requires ScanEnabled(s, step)
  {
    var rt := s.routes[step.route];
    if step.Visit? && Members(s.rooms, rt.room)[step.user] == c then {InSnapshot(step.route, |rt.phase.seen|)} else {}
  }

  lemma ScanMovesHolder(s: State, step: ScanStep, c: ConnId, h: Holder)
    requires ScanEnabled(s, step)
    ensures MovesHolder(s, ScanEffect(s, step), c, {}, ScanCome(s, step, c), h)
  {
  }

  lemma ScanMoves(s: State, step: ScanStep, c: ConnId)
    requires ScanEnabled(s, step)
    ensures Moves(s, ScanEffect(s, step), c, {}, ScanCome(s, step, c))
  {
    forall h ensures MovesHolder(s, ScanEffect(s, step), c, {}, ScanCome(s, step, c), h) {
      ScanMovesHolder(s, step, c, h);
    }
  }

  // dispatches

  function SendGone(s: State, step: SendStep, c: ConnId): set<Holder>
    requires SendEnabled(s, step)
  {
    if step.SendNext? && SendTarget(s, step).value.conn == c
    then {InSnapshot(step.route, s.routes[step.route].phase.next)} else {}
  }

  function SendCome(s: State, step: SendStep, c: ConnId): set<Holder>
    requires SendEnabled(s, step)
  {
    var target := SendTarget(s, step);
    if target.Some? && target.value.conn == c && c in s.chans
       && s.routes[step.route].header.packetType.SystemCmd? && s.chans[c].Full()
    then {InRetry(step.route)} else {}
  }

  /** The target is new to the call: it has no fate and no retry task yet. */
  ghost predicate NewTarget(s: State, step: SendStep)
    requires SendEnabled(s, step)
  {
    var (t, target) := (step.route, SendTarget(s, step));
    target.Some? ==>
      target.value.conn in s.chans && (t, target.value.conn) !in s.fates && ByRetry(t, target.value.conn) !in s.unregs
  }

  lemma TargetIsNew(s: State, step: SendStep)
    requires Books(s) && SendEnabled(s, step)
    ensures NewTarget(s, step)
  {
    if SendTarget(s, step).Some? {
      SendTargetIsNew(s, step);
    }
  }

  lemma SendMovesSnapshot(s: State, step: SendStep, c: ConnId, t: RouteId, i: int)
    requires SendEnabled(s, step)
    ensures MovesHolder(s, SendEffect(s, step), c, SendGone(s, step, c), SendCome(s, step, c), InSnapshot(t, i))
  {
  }

  lemma SendMovesRetry(s: State, step: SendStep, c: ConnId, t: RouteId)
    requires SendEnabled(s, step) && NewTarget(s, step)
    ensures MovesHolder(s, SendEffect(s, step), c, SendGone(s, step, c), SendCome(s, step, c), InRetry(t))
  {
  }

  lemma SendMovesRest(s: State, step: SendStep, c: ConnId, h: Holder)
    requires SendEnabled(s, step) && (h.InHandler? || h.InEntry?)
    ensures MovesHolder(s, SendEffect(s, step), c, SendGone(s, step, c), SendCome(s, step, c), h)
  {
  }

  lemma SendMovesCount(s: State, step: SendStep, c: ConnId)
    requires SendEnabled(s, step) && NewTarget(s, step)
    ensures MovesCount(s, SendEffect(s, step), c, SendGone(s, step, c), SendCome(s, step, c))
  {
  }

  lemma SendMoves(s: State, step: SendStep, c: ConnId)
    requires SendEnabled(s, step) && NewTarget(s, step)
    ensures Moves(s, SendEffect(s, step), c, SendGone(s, step, c), SendCome(s, step, c))
  {
    SendMovesCount(s, step, c);
    forall h ensures MovesHolder(s, SendEffect(s, step), c, SendGone(s, step, c), SendCome(s, step, c), h) {
      match h
      case InSnapshot(t, i) => SendMovesSnapshot(s, step, c, t, i);
      case InRetry(t) => SendMovesRetry(s, step, c, t);
      case _ => SendMovesRest(s, step, c, h);
    }
  }

  // retries and receipts

  function QueueGone(s: State, step: QueueStep, c: ConnId): set<Holder> {
    if step.RetrySucceed? && c == step.conn then {InRetry(step.route)} else {}
  }

  lemma QueueMoves(s: State, step: QueueStep, c: ConnId)
    requires OwnersDone(s.unregs, s.conns, s.fates) && QueueEnabled(s, step)
    ensures Moves(s, QueueEffect(s, step), c, QueueGone(s, step, c), {})
  {
  }

  // ---- every step keeps the count ----

  lemma ExchangeSize(hs: set<Holder>, gone: set<Holder>, come: set<Holder>)
    requires gone <= hs && come !! hs
    ensures |hs - gone + come| == |hs| - |gone| + |come|
  {
    assert (hs - gone) !! come;
  }

  lemma MovesKeepCount(s: State, s': State, c: ConnId, gone: set<Holder>, come: set<Holder>)
    requires CountIs(s, c) && Moves(s, s', c, gone, come)
    ensures CountIs(s', c)
  {
    var hs :| AreHolders(s, c, hs) && |hs| == s.senders[c];
    forall h
      ensures h in gone ==> h in hs
      ensures h in come ==> h !in hs
      ensures h in hs - gone + come <==> Holds(s', h, c)
    {
      assert MovesHolder(s, s', c, gone, come, h);
      assert h in hs <==> Holds(s, h, c);
    }
    ExchangeSize(hs, gone, come);
    assert AreHolders(s', c, hs - gone + come);
  }

  lemma NobodyHoldsUnknown(s: State, c: ConnId)
    requires Books(s) && c !in s.conns
    ensures NoSender(s, c)
  {
    forall h ensures !Holds(s, h, c) {
      if h.InSnapshot? && h.route in s.routes {
        assert RouteKeyed(s.routes[h.route], s.conns);
      }
    }
  }

  lemma ConnectCounts(s: State, step: HandlerStep)
    requires Books(s) && EntriesLive(s.rooms, s.conns, s.unregs)
    requires HandlerEnabled(s, step) && step.Connect? && step.conn !in s.senders
    ensures CountIs(HandlerEffect(s, step), step.conn)
  {
    var (c, s') := (step.conn, HandlerEffect(s, step));
    NobodyHoldsUnknown(s, c);
    HandlerMoves(s, step, c);
    forall h ensures h in {InHandler} <==> Holds(s', h, c) {
      assert MovesHolder(s, s', c, HandlerGone(s, step, c), HandlerCome(s, step, c), h);
    }
    assert AreHolders(s', c, {InHandler});
  }

  lemma HandlerKeepsCounted(s: State, step: HandlerStep)
    requires Books(s) && Sound(s) && Counted(s) && HandlerEnabled(s, step)
    ensures Counted(HandlerEffect(s, step))
  {
    var s' := HandlerEffect(s, step);
    forall c | c in s'.conns ensures CountIs(s', c) {
      if step.Connect? && c == step.conn {
        ConnectCounts(s, step);
      } else {
        HandlerMoves(s, step, c);
        MovesKeepCount(s, s', c, HandlerGone(s, step, c), HandlerCome(s, step, c));
      }
    }
  }

  lemma UnregKeepsCounted(s: State, step: UnregStep)
    requires Books(s) && Counted(s) && UnregEnabled(s, step)
    ensures Counted(UnregEffect(s, step))
  {
    forall c | c in s.conns ensures CountIs(UnregEffect(s, step), c) {
      UnregMoves(s, step, c);
      MovesKeepCount(s, UnregEffect(s, step), c, UnregGone(s, step, c), {});
    }
  }

  lemma ScanKeepsCounted(s: State, step: ScanStep)
    requires Counted(s) && ScanEnabled(s, step)
    ensures Counted(ScanEffect(s, step))
  {
    forall c | c in s.conns ensures CountIs(ScanEffect(s, step), c) {
      ScanMoves(s, step, c);
      MovesKeepCount(s, ScanEffect(s, step), c, {}, ScanCome(s, step, c));
    }
  }

  lemma SendKeepsCounted(s: State, step: SendStep)
    requires Books(s) && Counted(s) && SendEnabled(s, step)
    ensures Counted(SendEffect(s, step))
  {
    TargetIsNew(s, step);
    forall c | c in s.conns ensures CountIs(SendEffect(s, step), c) {
      SendMoves(s, step, c);
      MovesKeepCount(s, SendEffect(s, step), c, SendGone(s, step, c), SendCome(s, step, c));
    }
  }

  lemma QueueKeepsCounted(s: State, step: QueueStep)
    requires Books(s) && Counted(s) && QueueEnabled(s, step)
    ensures Counted(QueueEffect(s, step))
  {
    forall c | c in s.conns ensures CountIs(QueueEffect(s, step), c) {
      QueueMoves(s, step, c);
      MovesKeepCount(s, QueueEffect(s, step), c, QueueGone(s, step, c), {});
    }
  }

  lemma ArriveKeepsCounted(s: State, step: Step)
    requires Counted(s) && Enabled(s, step) && step.Arrive?
    ensures Counted(Next(s, step))
  {
    forall c | c in s.conns ensures CountIs(Next(s, step), c) {
      var s' := Next(s, step);
      forall h ensures MovesHolder(s, s', c, {}, {}, h) {
        assert Holds(s', h, c) <==> Holds(s, h, c);
      }
      MovesKeepCount(s, s', c, {}, {});
    }
  }

  lemma NextKeepsCounted(s: State, step: Step)
    requires Inv(s) && Counted(s)
    ensures Counted(Next(s, step))
  {
    if Enabled(s, step) {
      match step
      case Handler(handler) => HandlerKeepsCounted(s, handler);
      case Unregister(unregister) => UnregKeepsCounted(s, unregister);
      case Scan(scan) => ScanKeepsCounted(s, scan);
      case Send(send) => SendKeepsCounted(s, send);
      case Queue(queue) => QueueKeepsCounted(s, queue);
      case Arrive(_, _) => ArriveKeepsCounted(s, step);
    }
  }

  // ---- whole runs ----

  lemma {:induction false} ExecKeepsCounted(steps: seq<Step>)
    ensures Counted(Exec(INIT, steps))
    decreases |steps|
  {
    if steps == [] {
    } else {
      ExecKeepsInv(steps[..|steps| - 1]);
      ExecKeepsCounted(steps[..|steps| - 1]);
      NextKeepsCounted(Exec(INIT, steps[..|steps| - 1]), steps[|steps| - 1]);
    }
  }

  /** After every run the count of a channel's senders is the number of those that exist. */
  lemma SendersCountedExactly(s: State, c: ConnId) returns (holders: set<Holder>)
    requires Reachable(s) && c in s.chans
    ensures forall h :: h in holders <==> Holds(s, h, c)
    ensures c in s.senders && s.senders[c] == |holders|
    ensures s.senders[c] == 0 <==> NoSender(s, c)
  {
    ReachableInv(s);
    var steps :| Exec(INIT, steps) == s;
    ExecKeepsCounted(steps);
    assert CountIs(s, c);
    holders :| AreHolders(s, c, holders) && |holders| == s.senders[c];
    assert NoSender(s, c) ==> holders == {};
  }
}
