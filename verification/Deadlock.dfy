/**
 * The locks behind the gateway: the guard on a room, the guard on a room's members, and the mutex
 * of a channel's queue. Every operation takes them in that order and lets go of all of them
 * before it ends or awaits, so no set of operations can block each other for good.
 */
module Deadlock {
  datatype Lock = RoomGuard(room: int) | MembersGuard(room: int) | QueueMutex(chan: int)
  {
    function Level(): nat {
      match this
      case RoomGuard(_) => 0
      case MembersGuard(_) => 1
      case QueueMutex(_) => 2
    }
  }

  datatype Mode = Shared | Exclusive

  /** Code as its guards nest: Within holds the lock for exactly the length of its body. */
  datatype Code = Nothing | Within(lock: Lock, mode: Mode, body: Code) | Then(first: Code, second: Code)

  datatype Instr = Acquire(lock: Lock, mode: Mode) | Release(lock: Lock)

  function Compile(code: Code): seq<Instr> {
    match code
    case Nothing => []
    case Within(lock, mode, body) => [Acquire(lock, mode)] + Compile(body) + [Release(lock)]
    case Then(first, second) => Compile(first) + Compile(second)
  }

  /** One synchronous stretch of an operation, between two awaits. */
  datatype Operation =
    | RegisterOp(room: int)
    | EraseOp(room: int)          // unregister, up to the test for emptiness
    | CleanUpOp(room: int)        // unregister, remove_if
    | BroadcastOp(room: int, chans: seq<int>)
    | UnicastOp(room: int, chan: int)
    | QueueOp(chan: int)          // one send attempt, or one look of recv

  function SendAll(chans: seq<int>): Code {
    if chans == [] then Nothing else Then(Within(QueueMutex(chans[0]), Exclusive, Nothing), SendAll(chans[1..]))
  }

  function CodeOf(op: Operation): Code {
    match op
    case RegisterOp(r) => Within(RoomGuard(r), Exclusive, Within(MembersGuard(r), Exclusive, Nothing))
    case EraseOp(r) =>
      Within(RoomGuard(r), Shared,
        Then(Within(MembersGuard(r), Exclusive, Nothing), Within(MembersGuard(r), Shared, Nothing)))
    case CleanUpOp(r) => Within(RoomGuard(r), Exclusive, Within(MembersGuard(r), Shared, Nothing))
    case BroadcastOp(r, chans) =>
      Within(RoomGuard(r), Shared, Then(Within(MembersGuard(r), Shared, Nothing), SendAll(chans)))
    case UnicastOp(r, chan) =>
      Within(RoomGuard(r), Shared, Within(MembersGuard(r), Shared, Within(QueueMutex(chan), Exclusive, Nothing)))
    case QueueOp(chan) => Within(QueueMutex(chan), Exclusive, Nothing)
  }

  datatype Task = Task(op: Operation, held: map<Lock, Mode>, todo: seq<Instr>)

  type State = map<int, Task>

  datatype Step = Spawn(id: int, op: Operation) | Advance(id: int)

  predicate Conflict(a: Mode, b: Mode) {
    a.Exclusive? || b.Exclusive?
  }

  function AfterInstr(held: map<Lock, Mode>, instr: Instr): map<Lock, Mode> {
    if instr.Acquire? then held[instr.lock := instr.mode] else held - {instr.lock}
  }

  /** Nobody else holds the lock in a conflicting mode. */
  predicate Available(s: State, id: int, lock: Lock, mode: Mode) {
    forall j :: j in s && j != id && lock in s[j].held ==> !Conflict(s[j].held[lock], mode)
  }

  predicate Enabled(s: State, step: Step) {
    match step
    case Spawn(id, _) => id !in s
    case Advance(id) =>
      && id in s && s[id].todo != []
      && (s[id].todo[0].Acquire? ==> Available(s, id, s[id].todo[0].lock, s[id].todo[0].mode))
  }

  function Next(s: State, step: Step): State {
    if !Enabled(s, step) then s
    else
      match step
      case Spawn(id, op) => s[id := Task(op, map[], Compile(CodeOf(op)))]
      case Advance(id) =>
        var (first, rest) := (s[id].todo[0], s[id].todo[1..]);
        s[id := s[id].(held := AfterInstr(s[id].held, first), todo := rest)]
  }

  function Exec(steps: seq<Step>): State {
    if steps == [] then map[] else Next(Exec(steps[..|steps| - 1]), steps[|steps| - 1])
  }

  // ---- discipline ----

  /** The program acquires upwards only, releases what it holds, and ends holding nothing. */
  ghost predicate Disciplined(held: map<Lock, Mode>, todo: seq<Instr>)
    decreases |todo|
  {
    if todo == [] then held == map[]
    else if todo[0].Acquire? then
      && (forall l :: l in held ==> l.Level() < todo[0].lock.Level())
      && Disciplined(held[todo[0].lock := todo[0].mode], todo[1..])
    else todo[0].lock in held && Disciplined(held - {todo[0].lock}, todo[1..])
  }

  /** Locks nest upwards, from the given level on. */
  predicate Nests(code: Code, level: nat) {
    match code
    case Nothing => true
    case Within(lock, _, body) => lock.Level() >= level && Nests(body, lock.Level() + 1)
    case Then(first, second) => Nests(first, level) && Nests(second, level)
  }

  lemma {:induction false} NestingIsDisciplined(code: Code, level: nat, held: map<Lock, Mode>, rest: seq<Instr>)
    requires Nests(code, level) && Disciplined(held, rest)
    requires forall l :: l in held ==> l.Level() < level
    ensures Disciplined(held, Compile(code) + rest)
    decreases code
  {
    match code
    case Nothing =>
      assert Compile(code) + rest == rest;
    case Within(lock, mode, body) =>
      var (inner, after) := (held[lock := mode], [Release(lock)] + rest);
      assert inner - {lock} == held && after[1..] == rest;
      NestingIsDisciplined(body, lock.Level() + 1, inner, after);
      var todo := Compile(code) + rest;
      assert todo[1..] == Compile(body) + after;
    case Then(first, second) =>
      NestingIsDisciplined(second, level, held, rest);
      NestingIsDisciplined(first, level, held, Compile(second) + rest);
      assert Compile(code) + rest == Compile(first) + (Compile(second) + rest);
  }

  lemma {:induction false} SendAllNests(chans: seq<int>)
    ensures Nests(SendAll(chans), 2)
  {
    if chans == [] {
    } else {
      SendAllNests(chans[1..]);
    }
  }

  lemma {:induction false} NestsBelow(code: Code, level: nat, lower: nat)
    requires Nests(code, level) && lower <= level
    ensures Nests(code, lower)
    decreases code
  {
    if code.Then? {
      NestsBelow(code.first, level, lower);
      NestsBelow(code.second, level, lower);
    }
  }

  lemma LeafNests(lock: Lock, mode: Mode, level: nat)
    requires lock.Level() >= level
    ensures Nests(Within(lock, mode, Nothing), level)
  {
  }

  lemma OperationNests(op: Operation)
    ensures Nests(CodeOf(op), 0)
  {
    match op
    case QueueOp(chan) => LeafNests(QueueMutex(chan), Exclusive, 0);
    case UnicastOp(r, chan) =>
      LeafNests(QueueMutex(chan), Exclusive, 2);
      assert Nests(CodeOf(op).body, 1);
    case BroadcastOp(r, chans) =>
      LeafNests(MembersGuard(r), Shared, 1);
      SendAllNests(chans);
      NestsBelow(SendAll(chans), 2, 1);
      assert Nests(CodeOf(op).body, 1);
    case EraseOp(r) =>
      LeafNests(MembersGuard(r), Exclusive, 1);
      LeafNests(MembersGuard(r), Shared, 1);
      assert Nests(CodeOf(op).body, 1);
    case RegisterOp(r) => LeafNests(MembersGuard(r), Exclusive, 1);
    case CleanUpOp(r) => LeafNests(MembersGuard(r), Shared, 1);
  }

  /** Every operation of the gateway is disciplined. */
  lemma OperationIsDisciplined(op: Operation)
    ensures Disciplined(map[], Compile(CodeOf(op)))
  {
    OperationNests(op);
    NestingIsDisciplined(CodeOf(op), 0, map[], []);
    assert Compile(CodeOf(op)) + [] == Compile(CodeOf(op));
  }

  // ---- what the operations take ----

  /** The locks that each operation takes, and how. */
  function Locks(op: Operation): set<(Lock, Mode)> {
    match op
    case RegisterOp(r) => {(RoomGuard(r), Exclusive), (MembersGuard(r), Exclusive)}
    case EraseOp(r) => {(RoomGuard(r), Shared), (MembersGuard(r), Exclusive), (MembersGuard(r), Shared)}
    case CleanUpOp(r) => {(RoomGuard(r), Exclusive), (MembersGuard(r), Shared)}
    case BroadcastOp(r, chans) =>
      {(RoomGuard(r), Shared), (MembersGuard(r), Shared)} + set c | c in chans :: (QueueMutex(c), Exclusive)
    case UnicastOp(r, chan) => {(RoomGuard(r), Shared), (MembersGuard(r), Shared), (QueueMutex(chan), Exclusive)}
    case QueueOp(chan) => {(QueueMutex(chan), Exclusive)}
  }

  predicate Takes(code: Code, lock: Lock, mode: Mode) {
    Acquire(lock, mode) in Compile(code)
  }

  lemma {:induction false} SendAllTakes(chans: seq<int>, lock: Lock, mode: Mode)
    ensures Takes(SendAll(chans), lock, mode) <==> lock.QueueMutex? && mode.Exclusive? && lock.chan in chans
  {
    if chans == [] {
    } else {
      SendAllTakes(chans[1..], lock, mode);
      ThenTakes(Within(QueueMutex(chans[0]), Exclusive, Nothing), SendAll(chans[1..]), lock, mode);
      WithinTakes(QueueMutex(chans[0]), Exclusive, Nothing, lock, mode);
      assert lock.QueueMutex? ==> (lock.chan in chans <==> lock.chan == chans[0] || lock.chan in chans[1..]);
    }
  }

  lemma ThenTakes(first: Code, second: Code, lock: Lock, mode: Mode)
    ensures Takes(Then(first, second), lock, mode) <==> Takes(first, lock, mode) || Takes(second, lock, mode)
  {
  }

  lemma WithinTakes(outer: Lock, outerMode: Mode, body: Code, lock: Lock, mode: Mode)
    ensures Takes(Within(outer, outerMode, body), lock, mode) <==>
            (lock == outer && mode == outerMode) || Takes(body, lock, mode)
  {
    assert Acquire(outer, outerMode) in Compile(Within(outer, outerMode, body)) by {
      assert Compile(Within(outer, outerMode, body))[0] == Acquire(outer, outerMode);
    }
  }

  lemma {:induction false} NothingTakes(lock: Lock, mode: Mode)
    ensures !Takes(Nothing, lock, mode)
  {
  }

  lemma TakesExactly(op: Operation, lock: Lock, mode: Mode)
    ensures Takes(CodeOf(op), lock, mode) <==> (lock, mode) in Locks(op)
  {
    NothingTakes(lock, mode);
    match op
    case RegisterOp(r) =>
      WithinTakes(MembersGuard(r), Exclusive, Nothing, lock, mode);
      WithinTakes(RoomGuard(r), Exclusive, CodeOf(op).body, lock, mode);
    case EraseOp(r) =>
      WithinTakes(MembersGuard(r), Exclusive, Nothing, lock, mode);
      WithinTakes(MembersGuard(r), Shared, Nothing, lock, mode);
      ThenTakes(CodeOf(op).body.first, CodeOf(op).body.second, lock, mode);
      WithinTakes(RoomGuard(r), Shared, CodeOf(op).body, lock, mode);
    case CleanUpOp(r) =>
      WithinTakes(MembersGuard(r), Shared, Nothing, lock, mode);
      WithinTakes(RoomGuard(r), Exclusive, CodeOf(op).body, lock, mode);
    case BroadcastOp(r, chans) =>
      SendAllTakes(chans, lock, mode);
      WithinTakes(MembersGuard(r), Shared, Nothing, lock, mode);
      ThenTakes(CodeOf(op).body.first, CodeOf(op).body.second, lock, mode);
      WithinTakes(RoomGuard(r), Shared, CodeOf(op).body, lock, mode);
    case UnicastOp(r, chan) =>
      WithinTakes(QueueMutex(chan), Exclusive, Nothing, lock, mode);
      WithinTakes(MembersGuard(r), Shared, CodeOf(op).body.body, lock, mode);
      WithinTakes(RoomGuard(r), Shared, CodeOf(op).body, lock, mode);
    case QueueOp(chan) =>
      WithinTakes(QueueMutex(chan), Exclusive, Nothing, lock, mode);
  }

  /** Whatever concerns a room holds the room's guard from its first to its last instruction. */
  lemma HoldsRoomThroughout(op: Operation)
    requires !op.QueueOp?
    ensures
      var program := Compile(CodeOf(op));
      && |program| >= 2 && program[|program| - 1] == Release(RoomGuard(op.room))
      && (program[0] == Acquire(RoomGuard(op.room), Shared) || program[0] == Acquire(RoomGuard(op.room), Exclusive))
      && forall i :: 0 < i < |program| - 1 ==> !program[i].lock.RoomGuard?
  {
    var body := CodeOf(op).body;
    var (lock, mode) := (CodeOf(op).lock, CodeOf(op).mode);
    assert Compile(CodeOf(op)) == [Acquire(lock, mode)] + Compile(body) + [Release(lock)];
    if op.BroadcastOp? {
      SendAllIsInner(op.chans);
      assert OnlyInner(SendAll(op.chans)) && body.second == SendAll(op.chans);
      assert OnlyInner(body.first);
    }
    assert OnlyInner(body);
    InnerInstrs(body);
  }

  /** No guard on a room is taken inside. */
  predicate OnlyInner(code: Code) {
    match code
    case Nothing => true
    case Within(lock, _, body) => !lock.RoomGuard? && OnlyInner(body)
    case Then(first, second) => OnlyInner(first) && OnlyInner(second)
  }

  lemma {:induction false} SendAllIsInner(chans: seq<int>)
    ensures OnlyInner(SendAll(chans))
  {
    if chans == [] {
    } else {
      SendAllIsInner(chans[1..]);
    }
  }

  lemma {:induction false} InnerInstrs(code: Code)
    requires OnlyInner(code)
    ensures forall i :: 0 <= i < |Compile(code)| ==> !Compile(code)[i].lock.RoomGuard?
    decreases code
  {
    match code
    case Nothing =>
    case Within(_, _, body) => InnerInstrs(body);
    case Then(first, second) => InnerInstrs(first); InnerInstrs(second);
  }

  // ---- tasks follow their programs ----

  /** What the instructions of a task's past have left it holding. */
  function HeldAfter(past: seq<Instr>): map<Lock, Mode> {
    if past == [] then map[] else AfterInstr(HeldAfter(past[..|past| - 1]), past[|past| - 1])
  }

  ghost predicate Follows(task: Task, past: seq<Instr>) {
    past + task.todo == Compile(CodeOf(task.op)) && task.held == HeldAfter(past)
  }

  ghost predicate OnProgram(s: State) {
    forall i :: i in s ==> exists past :: Follows(s[i], past)
  }

  lemma NextKeepsProgram(s: State, step: Step)
    requires OnProgram(s)
    ensures OnProgram(Next(s, step))
  {
    if Enabled(s, step) {
      var s' := Next(s, step);
      if step.Spawn? {
        assert Follows(s'[step.id], []);
      } else {
        var task := s[step.id];
        var past :| Follows(task, past);
        var longer := past + [task.todo[0]];
        assert longer[..|past|] == past;
        assert longer + task.todo[1..] == past + task.todo;
        assert Follows(s'[step.id], longer);
      }
      forall i | i in s' ensures exists past :: Follows(s'[i], past) {
        if i != step.id {
          var past :| Follows(s[i], past);
          assert Follows(s'[i], past);
        }
      }
    }
  }

  lemma {:induction false} HeldWasTaken(past: seq<Instr>, lock: Lock)
    requires lock in HeldAfter(past)
    ensures Acquire(lock, HeldAfter(past)[lock]) in past
    decreases |past|
  {
    if past == [] {
    } else {
      var (init, last) := (past[..|past| - 1], past[|past| - 1]);
      if last != Acquire(lock, HeldAfter(past)[lock]) {
        HeldWasTaken(init, lock);
      }
    }
  }

  lemma {:induction false} ExecKeepsProgram(steps: seq<Step>)
    ensures OnProgram(Exec(steps))
    decreases |steps|
  {
    if steps == [] {
    } else {
      ExecKeepsProgram(steps[..|steps| - 1]);
      NextKeepsProgram(Exec(steps[..|steps| - 1]), steps[|steps| - 1]);
    }
  }

  /** A task holds only what its operation takes, in that mode; in the end it holds nothing. */
  lemma HoldsAsProgrammed(steps: seq<Step>, id: int, lock: Lock)
    requires id in Exec(steps)
    ensures var task := Exec(steps)[id]; lock in task.held ==> (lock, task.held[lock]) in Locks(task.op)
    ensures Exec(steps)[id].todo == [] ==> Exec(steps)[id].held == map[]
  {
    ExecKeepsProgram(steps);
    ExecKeepsInv(steps);
    var task := Exec(steps)[id];
    var past :| Follows(task, past);
    if lock in task.held {
      HeldWasTaken(past, lock);
      assert Takes(CodeOf(task.op), lock, task.held[lock]);
      TakesExactly(task.op, lock, task.held[lock]);
    }
  }

  /**
   * Mutual exclusion: two tasks are at one lock only if both operations merely share it. So a queue
   * is used by one at a time, and a register or a remove_if has its room for itself.
   */
  lemma MutualExclusion(steps: seq<Step>, i: int, j: int, lock: Lock)
    requires i in Exec(steps) && j in Exec(steps) && i != j
    requires lock in Exec(steps)[i].held && lock in Exec(steps)[j].held
    ensures (lock, Shared) in Locks(Exec(steps)[i].op) && (lock, Shared) in Locks(Exec(steps)[j].op)
    ensures !lock.QueueMutex?
    ensures lock.RoomGuard? ==> !Exec(steps)[i].op.RegisterOp? && !Exec(steps)[i].op.CleanUpOp?
  {
    ExecKeepsInv(steps);
    HoldsAsProgrammed(steps, i, lock);
    HoldsAsProgrammed(steps, j, lock);
  }

  /** A task exists from its spawning on, with its operation. */
  lemma {:induction false} SpawnedExactly(steps: seq<Step>, id: int)
    ensures id in Exec(steps) <==> exists k :: 0 <= k < |steps| && steps[k].Spawn? && steps[k].id == id
    decreases |steps|
  {
    if steps == [] {
    } else {
      var n := |steps| - 1;
      SpawnedExactly(steps[..n], id);
      if k :| 0 <= k < n && steps[k].Spawn? && steps[k].id == id {
        assert steps[..n][k] == steps[k];
      }
    }
  }

  lemma SpawnsItsProgram(s: State, id: int, op: Operation)
    requires id !in s
    ensures
      var s' := Next(s, Spawn(id, op));
      id in s' && s'[id].op == op && s'[id].todo == Compile(CodeOf(op)) && s'[id].held == map[]
  {
  }

  /** A lock can be taken exactly if nobody else holds it or all merely share it; it can always be released. */
  lemma AcquiresExactly(s: State, id: int)
    requires id in s && s[id].todo != []
    ensures
      var instr := s[id].todo[0];
      Enabled(s, Advance(id)) <==>
        instr.Release? || forall j :: j in s && j != id && instr.lock in s[j].held ==>
          s[j].held[instr.lock] == Shared && instr.mode == Shared
  {
  }

  /** Every enabled step of a task leaves one instruction less. */
  lemma AdvancesByOne(s: State, id: int)
    requires Enabled(s, Advance(id))
    ensures |Next(s, Advance(id))[id].todo| == |s[id].todo| - 1
  {
  }

  // ---- invariant ----

  ghost predicate Inv(s: State) {
    && (forall i :: i in s ==> Disciplined(s[i].held, s[i].todo))
    && (forall i, j, l :: i in s && j in s && i != j && l in s[i].held && l in s[j].held ==>
          !Conflict(s[i].held[l], s[j].held[l]))
  }

  lemma NextKeepsInv(s: State, step: Step)
    requires Inv(s)
    ensures Inv(Next(s, step))
  {
    if step.Spawn? {
      OperationIsDisciplined(step.op);
    }
  }

  lemma {:induction false} ExecKeepsInv(steps: seq<Step>)
    ensures Inv(Exec(steps))
    decreases |steps|
  {
    if steps == [] {
    } else {
      ExecKeepsInv(steps[..|steps| - 1]);
      NextKeepsInv(Exec(steps[..|steps| - 1]), steps[|steps| - 1]);
    }
  }

  /** A blocked task waits for a lock that another unfinished task holds; that one can move or waits higher up. */
  lemma {:induction false} SomebodyMoves(s: State, id: int, level: nat)
    requires Inv(s) && id in s && s[id].todo != []
    requires s[id].todo[0].Acquire? ==> s[id].todo[0].lock.Level() >= level
    requires level <= 3
    ensures exists j :: Enabled(s, Advance(j))
    decreases 3 - level
  {
    if !Enabled(s, Advance(id)) {
      var lock := s[id].todo[0].lock;
      var j :| j in s && j != id && lock in s[j].held && Conflict(s[j].held[lock], s[id].todo[0].mode);
      SomebodyMoves(s, j, lock.Level() + 1);
    }
  }

  /** In every state that any interleaving of operations reaches, unfinished work can go on. */
  lemma NoDeadlock(steps: seq<Step>, id: int)
    requires id in Exec(steps) && Exec(steps)[id].todo != []
    ensures exists j :: Enabled(Exec(steps), Advance(j))
  {
    ExecKeepsInv(steps);
    SomebodyMoves(Exec(steps), id, 0);
  }
}
