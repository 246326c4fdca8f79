/**
 * The bounded channel of src/routing.rs. Chan is its value: the queue together with the history of
 * what was accepted, received and evicted. BoundedChannel is the shared object.
 */
module Channel {
  import opened Wrappers

  /**
   * Items are numbered in the order of acceptance. `received` lists the numbers recv handed out;
   * `evictedBy[i]` is the number of the item whose acceptance pushed item i out.
   */
  datatype Chan<T> = Chan(capacity: nat, queue: seq<T>, accepted: seq<T>,
                          received: seq<nat>, evictedBy: map<nat, nat>)
  {
    /** Number of the item at the front of the queue. */
    function Head(): int { |accepted| - |queue| }

    predicate Full() { |queue| >= capacity }

    /** The most the queue ever holds: an evicting push leaves one item even at capacity 0. */
    function Bound(): nat { if capacity == 0 then 1 else capacity }
  }

  function NewChan<T>(capacity: nat): Chan<T> {
    Chan(capacity, [], [], [], map[])
  }

  function Push<T>(c: Chan<T>, item: T): Chan<T> {
    c.(queue := c.queue + [item], accepted := c.accepted + [item])
  }

  /** try_send: unchanged when full. */
  function TrySend<T>(c: Chan<T>, item: T): Chan<T> {
    if c.Full() then c else Push(c, item)
  }

  /** send_drop_oldest. pop_front of an empty queue does nothing. */
  function SendDropOldest<T>(c: Chan<T>, item: T): Chan<T> {
    if c.Full() && c.queue != [] && c.Head() >= 0
    then Push(c.(queue := c.queue[1..], evictedBy := c.evictedBy[c.Head() := |c.accepted|]), item)
    else Push(c, item)
  }

  /** The pop in recv. */
  function Receive<T>(c: Chan<T>): Chan<T> {
    if c.queue == [] || c.Head() < 0 then c
    else c.(queue := c.queue[1..], received := c.received + [c.Head()])
  }

  /**
   * Every accepted item is in exactly one place: still queued, received, or evicted. Receipts are
   * in order, the queue is bounded, and an evicted item gave way to the one Bound() places later.
   */
  ghost predicate Accounted<T>(c: Chan<T>) {
    && |c.queue| <= |c.accepted|
    && c.queue == c.accepted[c.Head()..]
    && |c.queue| <= c.Bound()
    && (forall i, j :: 0 <= i < j < |c.received| ==> c.received[i] < c.received[j])
    && (forall i :: i in c.received ==> i < c.Head())
    && (forall i :: i in c.evictedBy ==> i < c.Head())
    && (forall i :: 0 <= i < c.Head() ==> (i in c.received <==> i !in c.evictedBy))
    && (forall i :: i in c.evictedBy ==> c.evictedBy[i] == i + c.Bound() < |c.accepted|)
  }

  datatype Op<T> = TrySendOp(item: T) | DropOldestOp(item: T) | ReceiveOp

  function Apply<T>(c: Chan<T>, op: Op<T>): Chan<T> {
    match op
    case TrySendOp(item) => TrySend(c, item)
    case DropOldestOp(item) => SendDropOldest(c, item)
    case ReceiveOp => Receive(c)
  }

  /** The channel after any interleaving of its users' operations, each atomic under the mutex. */
  function Run<T>(c: Chan<T>, ops: seq<Op<T>>): Chan<T> {
    if ops == [] then c else Apply(Run(c, ops[..|ops| - 1]), ops[|ops| - 1])
  }

  /** History only grows. */
  ghost predicate Extends<T>(c: Chan<T>, d: Chan<T>) {
    && d.capacity == c.capacity
    && c.accepted <= d.accepted
    && c.received <= d.received
    && (forall i :: i in c.evictedBy ==> i in d.evictedBy && d.evictedBy[i] == c.evictedBy[i])
  }

  lemma PushAccounted<T>(c: Chan<T>, item: T)
    requires Accounted(c) && |c.queue| < c.Bound()
    ensures Accounted(Push(c, item)) && Extends(c, Push(c, item))
  {
  }

  lemma ReceiveAccounted<T>(c: Chan<T>)
    requires Accounted(c)
    ensures Accounted(Receive(c)) && Extends(c, Receive(c))
  {
    if c.queue != [] {
      var d, h := Receive(c), c.Head();
      assert d.queue == d.accepted[d.Head()..];
      assert forall i :: i in d.received <==> i in c.received || i == h;
      forall i, j | 0 <= i < j < |d.received| ensures d.received[i] < d.received[j] {
        assert d.received[i] in c.received;
      }
    }
  }

  lemma SendDropOldestAccounted<T>(c: Chan<T>, item: T)
    requires Accounted(c)
    ensures Accounted(SendDropOldest(c, item)) && Extends(c, SendDropOldest(c, item))
  {
    if c.Full() && c.queue != [] {
      var d, h := SendDropOldest(c, item), c.Head();
      assert d.queue == d.accepted[d.Head()..];
      assert d.evictedBy.Keys == c.evictedBy.Keys + {h};
    } else {
      PushAccounted(c, item);
    }
  }

  lemma StepAccounted<T>(c: Chan<T>, op: Op<T>)
    requires Accounted(c)
    ensures Accounted(Apply(c, op)) && Extends(c, Apply(c, op))
  {
    match op
    case TrySendOp(item) => if !c.Full() { PushAccounted(c, item); }
    case DropOldestOp(item) => SendDropOldestAccounted(c, item);
    case ReceiveOp => ReceiveAccounted(c);
  }

  /** The exact accounting holds after every interleaving, for every capacity. */
  lemma {:induction false} RunAccounted<T>(capacity: nat, ops: seq<Op<T>>)
    ensures Accounted(Run(NewChan(capacity), ops)) && Run(NewChan(capacity), ops).capacity == capacity
    decreases |ops|
  {
    if ops == [] {
    } else {
      RunAccounted(capacity, ops[..|ops| - 1]);
      StepAccounted(Run(NewChan(capacity), ops[..|ops| - 1]), ops[|ops| - 1]);
    }
  }

  lemma {:induction false} RunExtends<T>(c: Chan<T>, ops: seq<Op<T>>)
    requires Accounted(c)
    ensures Accounted(Run(c, ops)) && Extends(c, Run(c, ops))
    decreases |ops|
  {
    if ops == [] {
    } else {
      RunExtends(c, ops[..|ops| - 1]);
      StepAccounted(Run(c, ops[..|ops| - 1]), ops[|ops| - 1]);
    }
  }

  /** Step k evicts item i by accepting, through send_drop_oldest, the item Bound() places later. */
  ghost predicate EvictedAt<T>(capacity: nat, ops: seq<Op<T>>, k: nat, i: nat)
    requires k < |ops|
  {
    var before, after := Run(NewChan(capacity), ops[..k]), Run(NewChan(capacity), ops[..k + 1]);
    && ops[k].DropOldestOp?
    && i !in before.evictedBy && i in after.evictedBy
    && before.Full() && i == before.Head() && |before.accepted| == i + before.Bound()
    && after.accepted == before.accepted + [ops[k].item]
    && after.queue == before.queue[1..] + [ops[k].item]
  }

  /** Every eviction of a run happens in such a step: the newest item is always the one kept. */
  lemma {:induction false} EvictionIsFresh<T>(capacity: nat, ops: seq<Op<T>>, i: nat)
    requires i in Run(NewChan(capacity), ops).evictedBy
    ensures exists k: nat :: k < |ops| && EvictedAt(capacity, ops, k, i)
    decreases |ops|
  {
    var n := |ops| - 1;
    var init := ops[..n];
    RunAccounted(capacity, init);
    if i in Run(NewChan(capacity), init).evictedBy {
      EvictionIsFresh(capacity, init, i);
      var k: nat :| k < n && EvictedAt(capacity, init, k, i);
      assert init[..k] == ops[..k] && init[..k + 1] == ops[..k + 1];
      assert EvictedAt(capacity, ops, k, i);
    } else {
      assert ops[..n + 1] == ops;
      assert EvictedAt(capacity, ops, n, i);
    }
  }

  /** Step k is an evicting send to a channel that is full and holds something. */
  predicate Overflows<T>(capacity: nat, ops: seq<Op<T>>, k: nat)
    requires k < |ops|
  {
    var before := Run(NewChan(capacity), ops[..k]);
    ops[k].DropOldestOp? && before.Full() && before.queue != []
  }

  /** A run loses an accepted item if and only if one of its evicting sends overflows the channel. */
  lemma {:induction false} LosesExactlyByOverflow<T>(capacity: nat, ops: seq<Op<T>>)
    ensures Run(NewChan(capacity), ops).evictedBy != map[] <==>
            exists k: nat :: k < |ops| && Overflows(capacity, ops, k)
    decreases |ops|
  {
    if ops == [] {
    } else {
      var n := |ops| - 1;
      var init := ops[..n];
      RunAccounted(capacity, init);
      LosesExactlyByOverflow(capacity, init);
      assert forall k: nat :: k < n ==> init[..k] == ops[..k];
      assert forall k: nat :: k < n ==> (Overflows(capacity, init, k) <==> Overflows(capacity, ops, k));
      var (before, after) := (Run(NewChan(capacity), init), Run(NewChan(capacity), ops));
      if Overflows(capacity, ops, n) {
        assert before.Head() in after.evictedBy;
      } else {
        assert after.evictedBy == before.evictedBy;
      }
    }
  }

  /** Step k is an evicting send, and nothing is received after it. */
  predicate LeftBehind<T>(ops: seq<Op<T>>, k: nat)
    requires k < |ops|
  {
    ops[k].DropOldestOp? && forall j :: k < j < |ops| ==> !ops[j].ReceiveOp?
  }

  lemma StepExceeds<T>(c: Chan<T>, op: Op<T>)
    requires |c.queue| <= c.Bound() && |c.queue| <= |c.accepted|
    ensures |Apply(c, op).queue| > c.capacity <==>
            c.capacity == 0 && (op.DropOldestOp? || (op.TrySendOp? && |c.queue| > c.capacity))
  {
  }

  ghost predicate SomethingLeftBehind<T>(ops: seq<Op<T>>) {
    exists k: nat :: k < |ops| && LeftBehind(ops, k)
  }

  lemma LeftBehindNow<T>(ops: seq<Op<T>>, op: Op<T>)
    ensures SomethingLeftBehind(ops + [op]) <==> op.DropOldestOp? || (op.TrySendOp? && SomethingLeftBehind(ops))
  {
    var more := ops + [op];
    if op.DropOldestOp? {
      assert LeftBehind(more, |ops|);
    } else if op.ReceiveOp? {
      assert more[|ops|].ReceiveOp?;
      assert forall k: nat :: k < |more| ==> !LeftBehind(more, k);
    } else {
      assert forall j :: 0 <= j < |ops| ==> ops[j] == more[j];
      forall k: nat | k < |ops| ensures LeftBehind(ops, k) <==> LeftBehind(more, k) {
        assert LeftBehind(more, k) ==> forall j :: k < j < |ops| ==> !more[j].ReceiveOp?;
      }
    }
  }

  /** The queue exceeds the capacity if and only if that is 0 and no receipt has followed an evicting send. */
  lemma {:induction false} ExceedsCapacityExactly<T>(capacity: nat, ops: seq<Op<T>>)
    ensures |Run(NewChan(capacity), ops).queue| > capacity <==> capacity == 0 && SomethingLeftBehind(ops)
    decreases |ops|
  {
    if ops == [] {
    } else {
      var init := ops[..|ops| - 1];
      RunAccounted(capacity, init);
      ExceedsCapacityExactly(capacity, init);
      StepExceeds(Run(NewChan(capacity), init), ops[|ops| - 1]);
      LeftBehindNow(init, ops[|ops| - 1]);
      assert init + [ops[|ops| - 1]] == ops;
    }
  }

  /** The items handed out by recv, in order. */
  function HandedOut<T>(c: Chan<T>): seq<T>
    requires forall i :: i in c.received ==> i < |c.accepted|
  {
    seq(|c.received|, k requires 0 <= k < |c.received| =>
      assert c.received[k] in c.received;
      c.accepted[c.received[k]])
  }

  /** Without evictions the channel is a FIFO: what came out, then what is queued, is what went in. */
  lemma NoEvictionIsFifo<T>(c: Chan<T>)
    requires Accounted(c) && c.evictedBy == map[]
    ensures forall i :: i in c.received ==> i < |c.accepted|
    ensures HandedOut(c) + c.queue == c.accepted
  {
    assert forall k :: 0 <= k < |c.received| ==> c.received[k] in c.received;
    IncreasingIsIota(c.received, c.Head());
    assert forall i :: 0 <= i < |c.received| ==> HandedOut(c)[i] == c.accepted[i];
    assert HandedOut(c) == c.accepted[..c.Head()];
  }

  /** A strictly increasing sequence of all the numbers below n counts 0, 1, ..., n-1. */
  lemma {:induction false} IncreasingIsIota(s: seq<nat>, n: nat)
    requires forall i, j :: 0 <= i < j < |s| ==> s[i] < s[j]
    requires forall i :: 0 <= i < |s| ==> s[i] < n
    requires forall i :: 0 <= i < n ==> i in s
    ensures |s| == n && forall i :: 0 <= i < n ==> s[i] == i
    decreases n
  {
    assert |s| > 0 ==> s[0] < n;
    if n == 0 {
    } else {
      assert n - 1 in s;
      var k :| 0 <= k < |s| && s[k] == n - 1;
      assert s[|s| - 1] < n;
      var t := s[..k];
      forall i | 0 <= i < n - 1 ensures i in t {
        assert i in s;
        var j :| 0 <= j < |s| && s[j] == i;
        assert t[j] == i;
      }
      IncreasingIsIota(t, n - 1);
    }
  }

  /** Runs without evicting sends lose nothing that was accepted. */
  lemma {:induction false} LosslessWithoutDropOldest<T>(capacity: nat, ops: seq<Op<T>>)
    requires forall k :: 0 <= k < |ops| ==> !ops[k].DropOldestOp?
    ensures var c := Run(NewChan(capacity), ops);
      c.evictedBy == map[] && (forall i :: i in c.received ==> i < |c.accepted|) && HandedOut(c) + c.queue == c.accepted
    decreases |ops|
  {
    RunAccounted(capacity, ops);
    if ops == [] {
    } else {
      LosslessWithoutDropOldest(capacity, ops[..|ops| - 1]);
    }
    NoEvictionIsFifo(Run(NewChan(capacity), ops));
  }

  // ---- a timed send among others ----

  /** What the environment alone makes of the channel in the first n sleeps. */
  function Alone<T>(c: Chan<T>, env: nat -> seq<Op<T>>, n: nat): Chan<T> {
    if n == 0 then c else Run(Alone(c, env, n - 1), env(n - 1))
  }

  lemma {:induction false} AloneExtends<T>(c: Chan<T>, env: nat -> seq<Op<T>>, n: nat)
    requires Accounted(c)
    ensures Accounted(Alone(c, env, n)) && Extends(c, Alone(c, env, n))
  {
    if n == 0 {
    } else {
      AloneExtends(c, env, n - 1);
      RunExtends(Alone(c, env, n - 1), env(n - 1));
    }
  }

  /** What a timed send leaves behind whose attempt after n sleeps is the last one. */
  function TimedSend<T>(c: Chan<T>, env: nat -> seq<Op<T>>, n: nat, item: T, ok: bool): Chan<T> {
    if ok then Push(Alone(c, env, n), item) else Alone(c, env, n)
  }

  lemma TimedSendExtends<T>(c: Chan<T>, env: nat -> seq<Op<T>>, n: nat, item: T, ok: bool)
    requires Accounted(c)
    ensures Extends(c, TimedSend(c, env, n, item, ok))
  {
    AloneExtends(c, env, n);
  }

  /** Between two attempts lies a sleep of at least 5 ms. */
  ghost predicate SleepsFive(clock: nat -> nat) {
    forall i: nat, j: nat :: i < j ==> clock(i) + 5 <= clock(j)
  }

  lemma {:induction false} GapsAddUp(clock: nat -> nat, i: nat, j: nat)
    requires i < j && forall k: nat, l: nat :: l == k + 1 ==> clock(k) + 5 <= clock(l)
    ensures clock(i) + 5 <= clock(j)
    decreases j
  {
    assert clock(j - 1) + 5 <= clock(j);
    if j == i + 1 {
    } else {
      GapsAddUp(clock, i, j - 1);
    }
  }

  /** It is enough that consecutive attempts lie that far apart. */
  lemma SleepsFiveExactly(clock: nat -> nat)
    ensures SleepsFive(clock) <==> forall k: nat, l: nat :: l == k + 1 ==> clock(k) + 5 <= clock(l)
  {
    if forall k: nat, l: nat :: l == k + 1 ==> clock(k) + 5 <= clock(l) {
      forall i: nat, j: nat | i < j ensures clock(i) + 5 <= clock(j) {
        GapsAddUp(clock, i, j);
      }
    }
  }

  /** The first n attempts meet a full channel, and then the time is not up yet. */
  ghost predicate GoesOn<T>(c: Chan<T>, env: nat -> seq<Op<T>>, clock: nat -> nat, timeout: nat, n: int) {
    forall i: nat :: i < n ==> Alone(c, env, i).Full() && clock(i) < timeout
  }

  lemma {:induction false} ClockRuns(clock: nat -> nat, n: nat)
    requires SleepsFive(clock)
    ensures 5 * n <= clock(n)
  {
    if n == 0 {
    } else {
      ClockRuns(clock, n - 1);
      assert clock(n - 1) + 5 <= clock(n);
    }
  }

  lemma GoesOnOnceMore<T>(c: Chan<T>, env: nat -> seq<Op<T>>, clock: nat -> nat, timeout: nat, n: nat)
    requires SleepsFive(clock) && GoesOn(c, env, clock, timeout, n)
    requires Alone(c, env, n).Full() && clock(n) < timeout
    ensures GoesOn(c, env, clock, timeout, n + 1) && n + 1 <= (timeout + 4) / 5
  {
    ClockRuns(clock, n);
  }

  // ---- the shared object ----

  datatype Poll<T> = Ready(value: T) | Pending

  class BoundedChannel<T(0)> {
    const capacity: nat
    var queue: seq<T>
    /** Live sender clones; the receiver itself is the one more that Arc::strong_count sees. */
    var senders: nat
    /** The stored permit of Notify. */
    var permit: bool
    ghost var history: Chan<T>

    ghost predicate Valid()
      reads this
    {
      Accounted(history) && history.queue == queue && history.capacity == capacity
    }

    constructor (capacity: nat)
      ensures Valid() && history == NewChan(capacity) && senders == 1 && !permit
    {
      this.capacity := capacity;
      queue, senders, permit := [], 1, false;
      history := NewChan(capacity);
    }

    method TrySend(item: T) returns (ok: bool)
      requires Valid()
      modifies this
      ensures Valid() && history == Apply(old(history), TrySendOp(item))
      ensures ok <==> |old(queue)| < capacity
      ensures queue == old(queue) + if ok then [item] else []
      ensures senders == old(senders) && permit == (old(permit) || ok)
    {
      StepAccounted(history, TrySendOp(item));
      history := Apply(history, TrySendOp(item));
      if |queue| < capacity {
        queue := queue + [item];
        permit := true;
        ok := true;
      } else {
        ok := false;
      }
    }

    method SendDropOldest(item: T)
      requires Valid()
      modifies this
      ensures Valid() && history == Apply(old(history), DropOldestOp(item))
      ensures queue == (if |old(queue)| < capacity || old(queue) == [] then old(queue) else old(queue)[1..]) + [item]
      ensures senders == old(senders) && permit
    {
      StepAccounted(history, DropOldestOp(item));
      history := Apply(history, DropOldestOp(item));
      if |queue| >= capacity {
        if queue != [] {
          queue := queue[1..];
        }
      }
      queue := queue + [item];
      permit := true;
    }

    /** Another sender handle, for a registry entry, a broadcast snapshot or a retry task. */
    method CloneSender()
      requires Valid() && senders >= 1
      modifies this
      ensures Valid() && senders == old(senders) + 1
      ensures history == old(history) && queue == old(queue) && permit == old(permit)
    {
      senders := senders + 1;
    }

    /** Nobody is notified, even when the last handle goes. */
    method DropSender()
      requires Valid() && senders >= 1
      modifies this
      ensures Valid() && senders == old(senders) - 1
      ensures history == old(history) && queue == old(queue) && permit == old(permit)
    {
      senders := senders - 1;
    }

    /** One pass of recv under the lock: an item, the end of the stream, or go and wait. */
    method PollRecv() returns (r: Poll<Option<T>>)
      requires Valid()
      modifies this
      ensures Valid() && history == Receive(old(history))
      ensures senders == old(senders) && permit == old(permit)
      ensures old(queue) != [] ==> r == Ready(Some(old(queue)[0])) && queue == old(queue)[1..]
      ensures old(queue) == [] ==> r == if senders == 0 then Ready(None) else Pending
    {
      StepAccounted(history, ReceiveOp);
      history := Receive(history);
      if queue != [] {
        r := Ready(Some(queue[0]));
        queue := queue[1..];
      } else if senders == 0 {
        r := Ready(None);
      } else {
        r := Pending;
      }
    }

    method Perform(op: Op<T>)
      requires Valid()
      modifies this
      ensures Valid() && history == Apply(old(history), op) && senders == old(senders)
    {
      match op
      case TrySendOp(item) =>
        var _ := TrySend(item);
      case DropOldestOp(item) =>
        SendDropOldest(item);
      case ReceiveOp =>
        var _ := PollRecv();
    }

    /**
     * tokio::time::sleep, from the channel's point of view: everybody else sends and receives as
     * given, and clones and drops handles; this task does nothing, and keeps its own handle.
     */
    method Sleep(theirs: seq<Op<T>>)
      requires Valid() && senders >= 1
      modifies this
      ensures Valid() && senders >= 1 && history == Run(old(history), theirs)
    {
      for i := 0 to |theirs|
        invariant Valid() && history == Run(old(history), theirs[..i])
      {
        assert theirs[..i + 1][..i] == theirs[..i];
        Perform(theirs[i]);
      }
      assert theirs[..|theirs|] == theirs;
      var handles: nat :| handles >= 1;
      senders := handles;
    }

    /**
     * For every environment and every clock: env(i) is what the others do in sleep i, clock(i) the
     * time elapsed when attempt i has failed. All attempts but the last meet a full channel before
     * the time is up; the last one succeeds, or fails when the time is up. The outcome is what the
     * environment alone makes of the channel, plus the item once on success.
     */
    method SendTimeout(item: T, timeout: nat, env: nat -> seq<Op<T>>, clock: nat -> nat)
      returns (ok: bool, attempts: nat)
      requires Valid() && senders >= 1 && SleepsFive(clock)
      modifies this
      ensures Valid() && senders >= 1 && Extends(old(history), history)
      ensures 1 <= attempts <= (timeout + 4) / 5 + 1
      ensures forall i: nat :: i < attempts - 1 ==> Alone(old(history), env, i).Full() && clock(i) < timeout
      ensures ok <==> !Alone(old(history), env, attempts - 1).Full()
      ensures !ok ==> clock(attempts - 1) >= timeout && |queue| >= capacity
      ensures history == TimedSend(old(history), env, attempts - 1, item, ok)
    {
      ghost var before := history;
      var failed: nat := 0;
      while true
        invariant Valid() && senders >= 1
        invariant history == Alone(before, env, failed)
        invariant GoesOn(before, env, clock, timeout, failed) && failed <= (timeout + 4) / 5
        decreases (timeout + 4) / 5 - failed
      {
        ok := TrySend(item);
        attempts := failed + 1;
        var elapsed := clock(failed);
        if ok || elapsed >= timeout {
          TimedSendExtends(before, env, failed, item, ok);
          return;
        }
        GoesOnOnceMore(before, env, clock, timeout, failed);
        Sleep(env(failed));
        failed := failed + 1;
      }
    }
  }
}
