/**
 * "The last connection wins" (doc/rust_gateway_prd_v3.md, section 3.3). The code removes by key,
 * whoever's sender the key holds, so the rule holds exactly until somebody's unregister
 * removes a sender that is not its own handler's.
 */
module GatewayLatest {
  import opened GatewayProtocol
  import opened Registry
  import opened Gateway
  import opened GatewayKeys
  import opened GatewayRegistry
  import opened GatewayLog

  predicate LatestAt(log: seq<Event>, i: int, c: ConnId, room: Id, user: Id) {
    && InsertedAt(log, i, c) && OnKey(log[i], room, user)
    && forall j :: i < j < |log| && log[j].Inserted? ==> !OnKey(log[j], room, user)
  }

  /** The live handler that registered last under its key. */
  ghost predicate Latest(s: State, c: ConnId) {
    && LiveHandler(s.conns, s.unregs, c)
    && exists i :: LatestAt(s.log, i, c, s.conns[c].room, s.conns[c].user)
  }

  /** Since c registered, a failed retry to c has disconnected it, as it is meant to. */
  ghost predicate CutOff(s: State, c: ConnId)
    requires c in s.conns
  {
    exists i, j :: InsertedAt(s.log, i, c) && i < j && CutsOffAt(s.log, j, c, s.conns[c].room, s.conns[c].user)
  }

  predicate CutsOffAt(log: seq<Event>, j: int, c: ConnId, room: Id, user: Id) {
    0 <= j < |log| && OnKey(log[j], room, user) && log[j].Erased? && log[j].owner.ByRetry? && log[j].owner.conn == c
  }

  /**
   * The last connection wins: whoever registered last under a key is the one registered there. The
   * lenient rule excuses connections that their own retries have disconnected.
   */
  ghost predicate LatestWins(s: State, lenient: bool) {
    forall c :: Latest(s, c) && !(lenient && CutOff(s, c)) ==> Present(s, c)
  }

  /**
   * The guard that fails: an unregister is about to remove a sender other than its own handler's.
   * For the lenient rule, the sender of a connection other than the one it acts for.
   */
  predicate RemovesAnother(s: State, step: Step, lenient: bool) {
    && Enabled(s, step) && step.Unregister? && step.unregister.Erase?
    && var (o, un) := (step.unregister.owner, s.unregs[step.unregister.owner]);
       && Registered(s.rooms, un.room, un.user)
       && var c := s.rooms[un.room][un.user];
          if lenient then o.conn != c else o != ByHandler(c)
  }

  // ---- the rule is kept ----

  lemma LatestBefore(s: State, s': State, c: ConnId)
    requires s.log <= s'.log && Latest(s', c) && LiveHandler(s.conns, s.unregs, c) && KeysKept(s.conns, s'.conns)
    requires forall i :: InsertedAt(s'.log, i, c) ==> i < |s.log|
    ensures Latest(s, c)
  {
    var i :| LatestAt(s'.log, i, c, s'.conns[c].room, s'.conns[c].user);
    assert InsertedAt(s'.log, i, c);
    assert LatestAt(s.log, i, c, s.conns[c].room, s.conns[c].user);
  }

  lemma CutOffStays(s: State, s': State, c: ConnId)
    requires c in s.conns && CutOff(s, c) && s.log <= s'.log && KeysKept(s.conns, s'.conns)
    ensures CutOff(s', c)
  {
    var (room, user) := (s.conns[c].room, s.conns[c].user);
    var i, j :| InsertedAt(s.log, i, c) && i < j && CutsOffAt(s.log, j, c, room, user);
    assert InsertedAt(s'.log, i, c) && CutsOffAt(s'.log, j, c, room, user);
  }

  lemma QuietStepKeeps(s: State, s': State, lenient: bool)
    requires LatestWins(s, lenient) && s'.log == s.log && KeysKept(s.conns, s'.conns)
    requires forall c :: LiveHandler(s'.conns, s'.unregs, c) ==> LiveHandler(s.conns, s.unregs, c)
    requires forall c :: c in s.conns && Present(s, c) ==> Present(s', c)
    ensures LatestWins(s', lenient)
  {
  }

  lemma InsertKeepsLatest(s: State, d: ConnId, lenient: bool)
    requires LatestWins(s, lenient) && HandlerEnabled(s, InsertSelf(d)) && s.conns[d].room in s.rooms
    requires OwnersDone(s.unregs, s.conns, s.fates)
    ensures LatestWins(HandlerEffect(s, InsertSelf(d)), lenient)
  {
    var s' := HandlerEffect(s, InsertSelf(d));
    forall c | Latest(s', c) && !(lenient && CutOff(s', c)) ensures Present(s', c) {
      if c != d {
        LatestBefore(s, s', c);
        if CutOff(s, c) {
          CutOffStays(s, s', c);
        }
        var i :| LatestAt(s'.log, i, c, s'.conns[c].room, s'.conns[c].user);
        assert s'.log[|s.log|] == Inserted(s.conns[d].room, s.conns[d].user, d);
        assert !OnKey(s'.log[|s.log|], s'.conns[c].room, s'.conns[c].user);
      }
    }
  }

  lemma HandlerKeepsLatest(s: State, step: HandlerStep, lenient: bool)
    requires LatestWins(s, lenient) && HandlerEnabled(s, step) && OwnersDone(s.unregs, s.conns, s.fates)
    requires step.InsertSelf? ==> s.conns[step.conn].room in s.rooms
    requires InsertsLogged(s.log, s.conns)
    ensures LatestWins(HandlerEffect(s, step), lenient)
  {
    if step.InsertSelf? {
      InsertKeepsLatest(s, step.conn, lenient);
    } else {
      QuietStepKeeps(s, HandlerEffect(s, step), lenient);
    }
  }

  /** c's own retry has just disconnected it. */
  lemma RetryCutsOff(s: State, s': State, o: Owner, c: ConnId)
    requires o.ByRetry? && o.conn == c && Latest(s, c) && c in s'.conns && s'.conns[c] == s.conns[c]
    requires s'.log == s.log + [Erased(s.conns[c].room, s.conns[c].user, o)]
    ensures CutOff(s', c)
  {
    var i :| LatestAt(s.log, i, c, s.conns[c].room, s.conns[c].user);
    assert InsertedAt(s'.log, i, c) && CutsOffAt(s'.log, |s.log|, c, s.conns[c].room, s.conns[c].user);
  }

  lemma EraseKeepsLatest(s: State, o: Owner, lenient: bool)
    requires LatestWins(s, lenient) && UnregEnabled(s, Erase(o)) && UnregsKeyed(s.unregs, s.conns)
    requires !RemovesAnother(s, Unregister(Erase(o)), lenient)
    ensures LatestWins(UnregEffect(s, Erase(o)), lenient)
  {
    var s' := UnregEffect(s, Erase(o));
    forall c | Latest(s', c) && !(lenient && CutOff(s', c)) ensures Present(s', c) {
      LatestBefore(s, s', c);
      if CutOff(s, c) {
        CutOffStays(s, s', c);
      }
      assert Present(s, c);
      if lenient && o.ByRetry? && o.conn == c {
        RetryCutsOff(s, s', o, c);
      }
    }
  }

  lemma UnregKeepsLatest(s: State, step: UnregStep, lenient: bool)
    requires LatestWins(s, lenient) && UnregEnabled(s, step) && UnregsKeyed(s.unregs, s.conns)
    requires !RemovesAnother(s, Unregister(step), lenient)
    ensures LatestWins(UnregEffect(s, step), lenient)
  {
    if step.Erase? {
      EraseKeepsLatest(s, step.owner, lenient);
    } else {
      QuietStepKeeps(s, UnregEffect(s, step), lenient);
    }
  }

  // ---- the rule is broken ----

  /** Whoever is registered when another connection's unregister removes it has not been cut off. */
  lemma NotCutOff(s: State, s': State, o: Owner, c: ConnId, i: int)
    requires InsertedAt(s.log, i, c) && c in s.conns && c in s'.conns && s'.conns[c] == s.conns[c]
    requires QuietAfter(s.log, i, s.conns[c].room, s.conns[c].user) && InsertsLogged(s.log, s.conns)
    requires s'.log == s.log + [Erased(s.conns[c].room, s.conns[c].user, o)] && o.conn != c
    ensures !CutOff(s', c)
  {
  }

  /** A registered sender was inserted by the last event on its key. */
  lemma HolderCameLast(s: State, room: Id, user: Id) returns (i: int)
    requires Registered(s.rooms, room, user) && Refines(s.rooms, s.log)
    ensures InsertedAt(s.log, i, s.rooms[room][user]) && OnKey(s.log[i], room, user) && QuietAfter(s.log, i, room, user)
  {
    var c := s.rooms[room][user];
    assert (room, user) in Flat(s.rooms);
    LastEventDecides(s.log, room, user, c);
    i :| InsertedAt(s.log, i, c) && OnKey(s.log[i], room, user) && QuietAfter(s.log, i, room, user);
  }

  /** The erased connection is still the latest one, and no longer registered. */
  lemma ErasedIsLatest(s: State, o: Owner, c: ConnId, i: int)
    requires UnregEnabled(s, Erase(o)) && o != ByHandler(c) && LiveHandler(s.conns, s.unregs, c)
    requires IsConn(s.conns, c, s.unregs[o].room, s.unregs[o].user)
    requires InsertedAt(s.log, i, c) && OnKey(s.log[i], s.conns[c].room, s.conns[c].user)
    requires QuietAfter(s.log, i, s.conns[c].room, s.conns[c].user)
    ensures Latest(UnregEffect(s, Erase(o)), c) && !Present(UnregEffect(s, Erase(o)), c)
  {
    assert LatestAt(UnregEffect(s, Erase(o)).log, i, c, s.conns[c].room, s.conns[c].user);
  }

  lemma RemovalBreaksLatest(s: State, o: Owner, lenient: bool)
    requires EntriesKeyed(s.rooms, s.conns) && EntriesLive(s.rooms, s.conns, s.unregs)
    requires Refines(s.rooms, s.log) && InsertsLogged(s.log, s.conns)
    requires RemovesAnother(s, Unregister(Erase(o)), lenient)
    ensures !LatestWins(UnregEffect(s, Erase(o)), lenient)
  {
    var (room, user) := (s.unregs[o].room, s.unregs[o].user);
    var c := s.rooms[room][user];
    assert Registered(s.rooms, room, user);
    var i := HolderCameLast(s, room, user);
    ErasedIsLatest(s, o, c, i);
    if lenient {
      NotCutOff(s, UnregEffect(s, Erase(o)), o, c, i);
    }
  }

  lemma DeliveryKeepsLatest(s: State, s': State, lenient: bool)
    requires LatestWins(s, lenient) && LeavesRegistry(s, s')
    ensures LatestWins(s', lenient)
  {
    QuietStepKeeps(s, s', lenient);
  }

  /**
   * A step of any task keeps the rule if and only if it is not a removal of another's sender: a
   * displaced handler, or a failed retry, that reaches its unregister while the key is taken.
   */
  lemma LatestWinsExactly(s: State, step: Step, lenient: bool)
    requires Reachable(s) && LatestWins(s, lenient)
    ensures LatestWins(Next(s, step), lenient) <==> !RemovesAnother(s, step, lenient)
  {
    ReachableInv(s);
    if Enabled(s, step) {
      match step
      case Handler(handler) => HandlerKeepsLatest(s, handler, lenient);
      case Unregister(unregister) =>
        if RemovesAnother(s, step, lenient) {
          RemovalBreaksLatest(s, unregister.owner, lenient);
        } else {
          UnregKeepsLatest(s, unregister, lenient);
        }
      case _ =>
        DeliveryLeavesRegistry(s, step);
        DeliveryKeepsLatest(s, Next(s, step), lenient);
    }
  }

  /** No step of the run removes another's sender. */
  ghost predicate NoLateCleanup(steps: seq<Step>, lenient: bool) {
    forall k :: 0 <= k < |steps| ==> !RemovesAnother(Exec(INIT, steps[..k]), steps[k], lenient)
  }

  lemma NoLateCleanupBefore(steps: seq<Step>, n: nat, lenient: bool)
    requires NoLateCleanup(steps, lenient) && n < |steps|
    ensures NoLateCleanup(steps[..n], lenient)
    ensures !RemovesAnother(Exec(INIT, steps[..n]), steps[n], lenient)
  {
    forall k | 0 <= k < n ensures !RemovesAnother(Exec(INIT, steps[..n][..k]), steps[..n][k], lenient) {
      assert steps[..n][..k] == steps[..k];
    }
  }

  /** The last connection wins throughout every run without a late cleanup. */
  lemma {:induction false} LatestWinsWithoutLateCleanup(steps: seq<Step>, lenient: bool)
    requires NoLateCleanup(steps, lenient)
    ensures LatestWins(Exec(INIT, steps), lenient)
    decreases |steps|
  {
    if steps == [] {
    } else {
      var n := |steps| - 1;
      NoLateCleanupBefore(steps, n, lenient);
      LatestWinsWithoutLateCleanup(steps[..n], lenient);
      assert Reachable(Exec(INIT, steps[..n]));
      LatestWinsExactly(Exec(INIT, steps[..n]), steps[n], lenient);
    }
  }

  ghost predicate LatestWinsAt(steps: seq<Step>, k: int, lenient: bool)
    requires 0 <= k <= |steps|
  {
    LatestWins(Exec(INIT, steps[..k]), lenient)
  }

  lemma StepOfRun(steps: seq<Step>, k: nat, lenient: bool)
    requires k < |steps| && LatestWinsAt(steps, k, lenient)
    ensures LatestWinsAt(steps, k + 1, lenient) <==> !RemovesAnother(Exec(INIT, steps[..k]), steps[k], lenient)
  {
    assert steps[..k + 1][..k] == steps[..k];
    assert Reachable(Exec(INIT, steps[..k]));
    LatestWinsExactly(Exec(INIT, steps[..k]), steps[k], lenient);
  }

  /** The last connection wins at every moment of a run if and only if the run has no late cleanup. */
  lemma LatestWinsThroughoutExactly(steps: seq<Step>, lenient: bool)
    ensures (forall k :: 0 <= k <= |steps| ==> LatestWinsAt(steps, k, lenient)) <==> NoLateCleanup(steps, lenient)
  {
    if forall k :: 0 <= k <= |steps| ==> LatestWinsAt(steps, k, lenient) {
      forall k | 0 <= k < |steps| ensures !RemovesAnother(Exec(INIT, steps[..k]), steps[k], lenient) {
        assert LatestWinsAt(steps, k, lenient) && LatestWinsAt(steps, k + 1, lenient);
        StepOfRun(steps, k, lenient);
      }
    }
    if NoLateCleanup(steps, lenient) {
      forall k | 0 <= k <= |steps| ensures LatestWinsAt(steps, k, lenient) {
        if k < |steps| {
          NoLateCleanupBefore(steps, k, lenient);
        } else {
          assert steps[..k] == steps;
        }
        LatestWinsWithoutLateCleanup(steps[..k], lenient);
      }
    }
  }
}
