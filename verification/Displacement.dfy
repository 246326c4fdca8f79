/**
 * How soon a handler whose senders are all gone ends. Its select! loop drops the wait of recv
 * whenever another event is handled, in any case at each ping tick, and then polls recv again.
 */
module Displacement {
  import opened Wakeup
  import opened Heartbeat

  /** A step of the channel's users, and when it happens. */
  datatype At<T> = At(time: nat, step: Wakeup.Step<T>)

  function After<T>(s: State<T>, run: seq<At<T>>, k: nat): State<T>
    requires k <= |run|
  {
    if k == 0 then s else Wakeup.Next(After(s, run, k - 1), run[k - 1].step)
  }

  /** The receiver waits, or has ended: it has nothing to do by itself. */
  predicate Rests<T>(s: State<T>) {
    s.rx.Parked? || s.rx.Ended?
  }

  /** Time moves on, and only while the receiver rests. */
  predicate Urgent<T>(s: State<T>, run: seq<At<T>>) {
    && (forall i, j :: 0 <= i < j < |run| ==> run[i].time <= run[j].time)
    && (forall k: nat :: 0 < k < |run| && run[k - 1].time < run[k].time ==> Rests(After(s, run, k)))
  }

  /** The handler handles its tick on time, which cancels the wait. */
  predicate HandlesTick<T>(run: seq<At<T>>, tick: nat, k: nat) {
    k < |run| && run[k].time == tick && run[k].step.Cancel?
  }

  /** The first tick after now. */
  function NextTick(origin: nat, now: nat): (tick: nat)
    requires origin <= now
    ensures now < tick <= now + 10_000_000_000 && (tick - origin) % 10_000_000_000 == 0
  {
    origin + PING_INTERVAL * ((now - origin) / PING_INTERVAL + 1)
  }

  /** No sender is left, and nothing is queued. */
  predicate Bereft<T>(s: State<T>) {
    s.senders == {} && s.mutex.Free? && s.chan.queue == []
  }

  lemma {:induction false} StaysBereft<T>(s: State<T>, run: seq<At<T>>, k: nat)
    requires Bereft(s) && k <= |run|
    ensures Bereft(After(s, run, k))
  {
    if k == 0 {
    } else {
      StaysBereft(s, run, k - 1);
    }
  }

  /** Once cancelled, the receiver does not park again: it ends when it looks. */
  lemma {:induction false} ParksNoMore<T>(s: State<T>, run: seq<At<T>>, i: nat, k: nat)
    requires Bereft(s) && i <= k <= |run| && (After(s, run, i).rx.Idle? || After(s, run, i).rx.Ended?)
    ensures After(s, run, k).rx.Idle? || After(s, run, k).rx.Ended?
    decreases k
  {
    if k == i {
    } else {
      ParksNoMore(s, run, i, k - 1);
      StaysBereft(s, run, k - 1);
    }
  }

  lemma {:induction false} RestsOrLooks<T>(s: State<T>, run: seq<At<T>>, i: nat, k: nat)
    requires Bereft(s) && i <= k <= |run| && Rests(After(s, run, i))
    ensures Rests(After(s, run, k)) || After(s, run, k).rx.Idle?
    decreases k
  {
    if k == i {
    } else {
      RestsOrLooks(s, run, i, k - 1);
      StaysBereft(s, run, k - 1);
    }
  }

  /** Between two steps at different times there is a moment at which time has just moved on to the later one. */
  lemma {:induction false} MovedOn<T>(s: State<T>, run: seq<At<T>>, i: nat, k: nat) returns (b: nat)
    requires Urgent(s, run) && i < k < |run| && run[i].time < run[k].time
    ensures i < b <= k && run[b].time == run[k].time && Rests(After(s, run, b))
    decreases k
  {
    if run[k - 1].time < run[k].time {
      b := k;
    } else {
      b := MovedOn(s, run, i, k - 1);
    }
  }

  /**
   * From the moment that the last sender is gone and the queue is empty, a handler that handles its
   * next tick on time is gone when time has passed that tick, and that is within ten seconds.
   */
  lemma NoticedAtNextTick<T>(s: State<T>, run: seq<At<T>>, origin: nat, c: nat, k: nat)
    requires Bereft(s) && Urgent(s, run) && run != [] && origin <= run[0].time
    requires HandlesTick(run, NextTick(origin, run[0].time), c)
    requires k < |run| && run[k].time > NextTick(origin, run[0].time)
    ensures After(s, run, k).rx.Ended?
    ensures run[0].time < NextTick(origin, run[0].time) <= run[0].time + 10 * SECOND
  {
    Intervals(run[0].time - origin, 0);
    var b := MovedOn(s, run, 0, c);
    RestsOrLooks(s, run, b, c);
    StaysBereft(s, run, c);
    var e := MovedOn(s, run, c, k);
    ParksNoMore(s, run, c + 1, e);
    StaysEnded(s, run, e, k);
  }

  lemma {:induction false} StaysEnded<T>(s: State<T>, run: seq<At<T>>, i: nat, k: nat)
    requires i <= k <= |run| && After(s, run, i).rx.Ended?
    ensures After(s, run, k).rx.Ended?
    decreases k
  {
    if k == i {
    } else {
      StaysEnded(s, run, i, k - 1);
    }
  }

  /** Parked when the last sender goes, cancelled at the tick, and then polled again. */
  function TickRun<T>(now: nat, tick: nat): seq<At<T>> {
    [At(now, Resume), At(tick, Cancel), At(tick, Check), At(tick + 1, Resume)]
  }

  /** The bound is reached: a handler that parks before its last sender goes outlives it until the next tick. */
  lemma ParkedUntilNextTick<T>(s: State<T>, origin: nat, now: nat)
    requires Bereft(s) && s.rx.Parked? && origin <= now
    ensures
      var (tick, run) := (NextTick(origin, now), TickRun<T>(now, NextTick(origin, now)));
      && Urgent(s, run) && run[0].time == now && HandlesTick(run, tick, 1) && run[3].time > tick
      && After(s, run, 1).rx.Parked? && After(s, run, 3).rx.Ended?
  {
    var run := TickRun<T>(now, NextTick(origin, now));
    assert After(s, run, 1) == s;
    assert After(s, run, 2) == Wakeup.Next(s, Cancel);
    assert After(s, run, 3) == Wakeup.Next(Wakeup.Next(s, Cancel), Check);
  }
}
