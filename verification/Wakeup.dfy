/**
 * Senders and the one receiver of a channel, interleaved at the level of the queue mutex and of
 * tokio's Notify: a sender pushes and notifies while it holds the mutex; recv looks at the queue
 * under the mutex, lets go of it, and only then starts to wait.
 */
module Wakeup {
  import opened Channel

  /**
   * Idle: about to take the lock. Checked: saw an empty queue and unlocked. Parked: waits in
   * notified(). Woken: notified but not yet polled. Ended: recv returned None.
   */
  datatype Receiver = Idle | Checked | Parked | Woken | Ended

  /** Notifying(s): sender s has pushed, holds the mutex and has yet to call notify_one. */
  datatype Mutex = Free | Notifying(sender: nat)

  datatype State<T> = State(chan: Chan<T>, senders: set<nat>, mutex: Mutex, permit: bool, rx: Receiver)

  datatype Step<T> =
    | CloneSender(sender: nat, clone: nat)
    | DropSender(sender: nat)
    | PushItem(sender: nat, op: Op<T>)
    | NotifyOne
    | Check
    | Await
    | Resume
    | Cancel

  function Init<T>(capacity: nat, sender: nat): State<T> {
    State(NewChan(capacity), {sender}, Free, false, Idle)
  }

  predicate Enabled<T>(s: State<T>, step: Step<T>) {
    match step
    case CloneSender(sender, clone) => sender in s.senders && clone !in s.senders
    case DropSender(sender) => sender in s.senders && s.mutex != Notifying(sender)
    case PushItem(sender, op) =>
      sender in s.senders && s.mutex.Free? && !op.ReceiveOp? && (op.TrySendOp? ==> !s.chan.Full())
    case NotifyOne => s.mutex.Notifying?
    case Check => s.mutex.Free? && s.rx.Idle?
    case Await => s.rx.Checked?
    case Resume => s.rx.Woken?
    case Cancel => s.rx.Parked? || s.rx.Woken?
  }

  /** One step; a step that is not enabled changes nothing. */
  function Next<T>(s: State<T>, step: Step<T>): State<T> {
    if !Enabled(s, step) then s
    else
      match step
      case CloneSender(sender, clone) => s.(senders := s.senders + {clone})
      case DropSender(sender) => s.(senders := s.senders - {sender})
      case PushItem(sender, op) => s.(chan := Apply(s.chan, op), mutex := Notifying(sender))
      case NotifyOne =>
        if s.rx.Parked? then s.(mutex := Free, rx := Woken) else s.(mutex := Free, permit := true)
      case Check =>
        if s.chan.queue != [] then s.(chan := Receive(s.chan))
        else if s.senders == {} then s.(rx := Ended)
        else s.(rx := Checked)
      case Await => if s.permit then s.(permit := false, rx := Idle) else s.(rx := Parked)
      case Resume => s.(rx := Idle)
      // A dropped waiter that was already notified hands the notification back.
      case Cancel => s.(rx := Idle, permit := s.permit || s.rx.Woken?)
  }

  function Exec<T>(s: State<T>, steps: seq<Step<T>>): State<T> {
    if steps == [] then s else Next(Exec(s, steps[..|steps| - 1]), steps[|steps| - 1])
  }

  lemma ExecAppend<T>(s: State<T>, steps: seq<Step<T>>, step: Step<T>)
    ensures Exec(s, steps + [step]) == Next(Exec(s, steps), step)
  {
  }

  /** A queued item never waits on a receiver that nobody is going to wake. */
  ghost predicate NoLostWakeup<T>(s: State<T>) {
    s.chan.queue != [] && (s.rx.Checked? || s.rx.Parked?) ==>
      s.mutex.Notifying? || (s.rx.Checked? && s.permit)
  }

  ghost predicate Inv<T>(s: State<T>) {
    && Accounted(s.chan)
    && NoLostWakeup(s)
    && (s.rx.Parked? ==> !s.permit)
    && (s.mutex.Notifying? ==> s.mutex.sender in s.senders)
    && (s.rx.Ended? ==> s.senders == {} && s.chan.queue == [])
  }

  lemma NextKeepsInv<T>(s: State<T>, step: Step<T>)
    requires Inv(s)
    ensures Inv(Next(s, step))
  {
    match step
    case PushItem(sender, op) => StepAccounted(s.chan, op);
    case Check => StepAccounted(s.chan, ReceiveOp);
    case CloneSender(_, _) =>
    case DropSender(_) =>
    case NotifyOne =>
    case Await =>
    case Resume =>
    case Cancel =>
  }

  /** In every state that any interleaving reaches, no wakeup is lost and every item is accounted for. */
  lemma {:induction false} NeverLosesWakeup<T>(capacity: nat, sender: nat, steps: seq<Step<T>>)
    ensures Inv(Exec(Init(capacity, sender), steps))
    decreases |steps|
  {
    if steps == [] {
      StepAccounted(NewChan<T>(capacity), ReceiveOp);
    } else {
      NeverLosesWakeup<T>(capacity, sender, steps[..|steps| - 1]);
      NextKeepsInv(Exec(Init(capacity, sender), steps[..|steps| - 1]), steps[|steps| - 1]);
    }
  }

  /** The step that is due without any help from other senders: finish the notification, then recv goes on. */
  function Due<T>(s: State<T>): Step<T> {
    if s.mutex.Notifying? then NotifyOne
    else match s.rx
      case Checked => Await
      case Woken => Resume
      case _ => Check
  }

  function Drive<T>(s: State<T>, n: nat): State<T>
    decreases n
  {
    if n == 0 then s else Drive(Next(s, Due(s)), n - 1)
  }

  /** How many due steps may pass until the receiver looks at the queue, counting that one. */
  function Distance<T>(s: State<T>): (d: nat)
    ensures 1 <= d <= 3
  {
    if s.mutex.Notifying? then 3 else if s.rx.Idle? then 1 else 2
  }

  lemma DueComesCloser<T>(s: State<T>)
    requires Inv(s) && s.chan.queue != []
    ensures var s' := Next(s, Due(s));
      s'.chan == Receive(s.chan) || (s'.chan == s.chan && Distance(s') < Distance(s))
  {
  }

  lemma {:induction false} ServedInTime<T>(s: State<T>) returns (n: nat)
    requires Inv(s) && s.chan.queue != []
    ensures 1 <= n <= Distance(s) && Drive(s, n).chan == Receive(s.chan)
    decreases Distance(s)
  {
    var s' := Next(s, Due(s));
    DueComesCloser(s);
    NextKeepsInv(s, Due(s));
    if s'.chan == Receive(s.chan) {
      assert Drive(s, 1) == Drive(s', 0);
      n := 1;
    } else {
      var m := ServedInTime(s');
      n := m + 1;
    }
  }

  /** A non-empty queue is served within three due steps, with the item at its front. */
  lemma ServedWithinThreeSteps<T>(s: State<T>)
    requires Inv(s) && s.chan.queue != []
    ensures exists n :: 1 <= n <= 3 && Drive(s, n).chan == Receive(s.chan)
  {
    var n := ServedInTime(s);
    assert Drive(s, n).chan == Receive(s.chan);
  }

  // ---- what the steps do to senders, notifications and the receiver ----

  /** Clones and drops, and nothing else, change who holds a sender. */
  lemma SendersExactly<T>(s: State<T>, step: Step<T>, x: nat)
    requires Enabled(s, step)
    ensures x in Next(s, step).senders <==> (x in s.senders && step != DropSender(x)) || Clones(step, x)
  {
  }

  predicate Clones<T>(step: Step<T>, x: nat) {
    step.CloneSender? && step.clone == x
  }

  /**
   * Whoever holds a sender can clone it, and can push, unless the mutex is taken or a refusing
   * send meets a full channel; it can drop it, unless it is in the middle of a push.
   */
  lemma SendersCan<T>(s: State<T>, x: nat, y: nat, item: T)
    ensures Enabled(s, CloneSender(x, y)) <==> x in s.senders && y !in s.senders
    ensures Enabled(s, DropSender(x)) <==> x in s.senders && s.mutex != Notifying(x)
    ensures Enabled(s, PushItem(x, DropOldestOp(item))) <==> x in s.senders && s.mutex == Free
    ensures Enabled(s, PushItem(x, TrySendOp(item))) <==>
      x in s.senders && s.mutex == Free && |s.chan.queue| < s.chan.capacity
  {
  }

  predicate Notified<T>(s: State<T>) {
    s.permit || s.rx.Woken?
  }

  /**
   * notify_one leaves a notification behind, and only a receiver that goes on because of it uses it
   * up: a stored one lets one wait go on at once, and is gone.
   */
  lemma NotificationsAreKept<T>(s: State<T>, step: Step<T>)
    requires Inv(s) && Enabled(s, step)
    ensures step.NotifyOne? ==> Notified(Next(s, step)) && Next(s, step).mutex == Free
    ensures Notified(s) && !Notified(Next(s, step)) ==> Next(s, step).rx == Idle && (step.Await? || step.Resume?)
    ensures !Notified(s) && Notified(Next(s, step)) ==> step.NotifyOne?
    ensures step.Await? ==> !Next(s, step).permit && (Next(s, step).rx == Idle <==> s.permit)
    ensures step.Resume? ==> Next(s, step).rx == Idle && Next(s, step).permit == s.permit
  {
  }

  /** What recv makes of one look at the queue. */
  lemma LooksExactly<T>(s: State<T>)
    requires Enabled(s, Check)
    ensures
      var rx := Next(s, Check).rx;
      && (rx == Ended <==> s.chan.queue == [] && s.senders == {})
      && (rx == Checked <==> s.chan.queue == [] && s.senders != {})
  {
  }

  // ---- a push is delivered ----

  /** A push puts its item at the back of the queue, and a full channel gives up its front for it. */
  lemma PushTakesIn<T>(s: State<T>, sender: nat, op: Op<T>)
    requires Inv(s) && Enabled(s, PushItem(sender, op))
    ensures
      var chan := Next(s, PushItem(sender, op)).chan;
      && chan.accepted == s.chan.accepted + [op.item]
      && chan.queue == (if s.chan.Full() && s.chan.queue != [] then s.chan.queue[1..] else s.chan.queue) + [op.item]
      && chan.received == s.chan.received
  {
  }

  /** Only pushes and receipts change the channel, and a receipt takes the front item. */
  lemma ReceiptsTakeTheFront<T>(s: State<T>, step: Step<T>)
    requires Inv(s) && Enabled(s, step) && !step.PushItem?
    ensures
      var chan := Next(s, step).chan;
      if step.Check? && s.chan.queue != []
      then chan.queue == s.chan.queue[1..] && chan.received == s.chan.received + [s.chan.Head()]
           && chan.accepted == s.chan.accepted
      else chan == s.chan
  {
  }

  lemma {:induction false} DriveFurther<T>(s: State<T>, m: nat, n: nat)
    ensures Drive(Drive(s, m), n) == Drive(s, m + n)
    decreases m
  {
    if m == 0 {
    } else {
      DriveFurther(Next(s, Due(s)), m - 1, n);
    }
  }

  lemma {:induction false} DriveKeepsInv<T>(s: State<T>, n: nat)
    requires Inv(s)
    ensures Inv(Drive(s, n))
    decreases n
  {
    if n == 0 {
    } else {
      NextKeepsInv(s, Due(s));
      DriveKeepsInv(Next(s, Due(s)), n - 1);
    }
  }

  /** Every queued item is handed out after some number of due steps, which need no other sender. */
  lemma {:induction false} QueuedIsHandedOut<T>(s: State<T>, i: nat) returns (n: nat)
    requires Inv(s) && s.chan.Head() <= i < |s.chan.accepted|
    ensures i in Drive(s, n).chan.received && n <= 3 * (i + 1 - s.chan.Head())
    decreases i - s.chan.Head()
  {
    var m := ServedInTime(s);
    var s' := Drive(s, m);
    DriveKeepsInv(s, m);
    assert s'.chan.received == s.chan.received + [s.chan.Head()];
    if i == s.chan.Head() {
      n := m;
    } else {
      var l := QueuedIsHandedOut(s', i);
      DriveFurther(s, m, l);
      n := m + l;
    }
  }

  /** What is pushed is received, unless something is pushed meanwhile that evicts it. */
  lemma PushIsDelivered<T>(s: State<T>, sender: nat, op: Op<T>)
    requires Inv(s) && Enabled(s, PushItem(sender, op))
    ensures
      var s' := Next(s, PushItem(sender, op));
      exists n: nat :: n <= 3 * |s'.chan.queue| && |s.chan.accepted| in Drive(s', n).chan.received
  {
    PushTakesIn(s, sender, op);
    var s' := Next(s, PushItem(sender, op));
    NextKeepsInv(s, PushItem(sender, op));
    var n := QueuedIsHandedOut(s', |s.chan.accepted|);
    assert |s.chan.accepted| in Drive(s', n).chan.received;
  }

  ghost predicate ParkedOnItem<T>(s: State<T>, item: T) {
    s.rx.Parked? && s.chan.queue == [item] && s.chan.accepted == [item]
  }

  /** A receiver can be parked while an item is queued: it is about to be notified. */
  lemma ItemMeetsParkedReceiver<T>(capacity: nat, sender: nat, item: T)
    ensures exists steps: seq<Step<T>> :: ParkedOnItem(Exec(Init(capacity, sender), steps), item)
  {
    var init: State<T> := Init(capacity, sender);
    var looked := [] + [Check];
    var parked := looked + [Await];
    ExecAppend(init, [], Check);
    ExecAppend(init, looked, Await);
    ExecAppend(init, parked, PushItem(sender, DropOldestOp(item)));
    assert ParkedOnItem(Exec(init, parked + [PushItem(sender, DropOldestOp(item))]), item);
  }

  /**
   * None is final and loses nothing: whatever anybody does afterwards changes nothing, no sender
   * is left, and every item ever accepted was either received or evicted.
   */
  lemma {:induction false} NoneIsFinal<T>(s: State<T>, more: seq<Step<T>>)
    requires Inv(s) && s.rx.Ended?
    ensures Exec(s, more) == s && s.senders == {}
    ensures forall i :: 0 <= i < |s.chan.accepted| ==> (i in s.chan.received <==> i !in s.chan.evictedBy)
    decreases |more|
  {
    assert s.chan.Head() == |s.chan.accepted|;
    if more == [] {
    } else {
      NoneIsFinal(s, more[..|more| - 1]);
    }
  }

  // ---- noticing closure ----

  /** The receiver waits, or is bound to wait, for a notification that nobody has stored. */
  predicate Deaf<T>(s: State<T>) {
    s.rx.Parked? || (s.rx.Checked? && !s.permit)
  }

  lemma DeafStaysDeaf<T>(s: State<T>, step: Step<T>)
    requires Inv(s) && s.senders == {} && Deaf(s) && !step.Cancel?
    ensures Deaf(Next(s, step)) && Next(s, step).senders == {}
  {
  }

  /** Once the last sender is gone, a deaf receiver ends in no run in which its wait is not cancelled. */
  lemma {:induction false} DeafForGood<T>(s: State<T>, more: seq<Step<T>>)
    requires Inv(s) && s.senders == {} && Deaf(s)
    requires forall k :: 0 <= k < |more| ==> !more[k].Cancel?
    ensures Inv(Exec(s, more)) && Deaf(Exec(s, more)) && Exec(s, more).senders == {}
    decreases |more|
  {
    if more == [] {
    } else {
      DeafForGood(s, more[..|more| - 1]);
      NextKeepsInv(Exec(s, more[..|more| - 1]), more[|more| - 1]);
    }
  }

  /** Cancelling the wait and polling again, as a ping tick makes the handler do, ends the stream at once. */
  lemma ClosureNeedsAnotherPoll<T>(s: State<T>, step: Step<T>)
    requires Inv(s) && s.senders == {} && Deaf(s)
    ensures Enabled(s, step) <==> if s.rx.Parked? then step.Cancel? else step.Await?
    ensures Next(Next(Next(s, Await), Cancel), Check).rx.Ended?
  {
  }

  lemma {:induction false} DeafDrive<T>(s: State<T>, n: nat)
    requires Inv(s) && s.senders == {} && Deaf(s)
    ensures !Drive(s, n).rx.Ended?
    decreases n
  {
    if n == 0 {
    } else {
      DeafStaysDeaf(s, Due(s));
      NextKeepsInv(s, Due(s));
      DeafDrive(Next(s, Due(s)), n - 1);
    }
  }

  /** A receiver that is not deaf hands out what is queued, and then ends. */
  lemma {:induction false} HearingReceiverEnds<T>(s: State<T>) returns (n: nat)
    requires Inv(s) && s.senders == {} && !Deaf(s)
    ensures Drive(s, n).rx.Ended?
    decreases |s.chan.queue|, if s.rx.Ended? then 0 else if s.rx.Idle? then 1 else 2
  {
    if s.rx.Ended? {
      assert Drive(s, 0) == s;
      n := 0;
    } else {
      NextKeepsInv(s, Due(s));
      var m := HearingReceiverEnds(Next(s, Due(s)));
      n := m + 1;
    }
  }

  /**
   * When the last sender goes, the receiver goes on to notice it by itself if and only if it is
   * not deaf: not parked, and not about to park without a stored notification.
   */
  lemma ClosureNoticedExactly<T>(s: State<T>)
    requires Inv(s) && s.senders == {}
    ensures (exists n: nat :: Drive(s, n).rx.Ended?) <==> !Deaf(s)
  {
    if Deaf(s) {
      forall n: nat ensures !Drive(s, n).rx.Ended? {
        DeafDrive(s, n);
      }
    } else {
      var n := HearingReceiverEnds(s);
      assert Drive(s, n).rx.Ended?;
    }
  }

  ghost predicate StuckIn<T>(s: State<T>, rx: Receiver) {
    s.rx == rx && Deaf(s) && s.senders == {} && s.chan.queue == []
  }

  /** Both kinds of deafness are reached: the receiver looks, parks or not, and then the only sender goes. */
  lemma DropDoesNotNotify<T>(capacity: nat, sender: nat)
    ensures exists steps: seq<Step<T>> :: StuckIn(Exec(Init(capacity, sender), steps), Parked)
    ensures exists steps: seq<Step<T>> :: StuckIn(Exec(Init(capacity, sender), steps), Checked)
  {
    var init: State<T> := Init(capacity, sender);
    var looked := [] + [Check];
    var parked := looked + [Await];
    ExecAppend(init, [], Check);
    ExecAppend(init, looked, Await);
    ExecAppend(init, looked, DropSender(sender));
    ExecAppend(init, parked, DropSender(sender));
    assert StuckIn(Exec(init, looked + [DropSender(sender)]), Checked);
    assert StuckIn(Exec(init, parked + [DropSender(sender)]), Parked);
  }
}
