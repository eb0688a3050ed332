/**
 * The pending-timer protocol: the coordinator arms and cancels (app/services/timer_coordinator.py), the worker fires
 * (app/tasks/bugtrack_tasks.py), and both meet in the timer store (app/services/pending_timer_store.py).
 *
 * Every await is an interleaving point. A fire may come at any time after its task was scheduled, any number of
 * times, and also after the task was revoked.
 */
module Timers {
  import opened Wrappers

  type Key = string
  type TaskId = nat

  const META_TTL := 1900

  datatype Entry = Entry(task: TaskId, expires: int)

  /** How a task left the store. */
  datatype Cause = Fired | Cancelled | Replaced | Lapsed

  /** Where a coordinator is: what it read, and whether it goes on to arm a new timer. */
  datatype Pc =
    | Got(task: TaskId)
    | Revoked(task: TaskId)
    | Clearing(task: TaskId)
    | Scheduling
    | Storing(task: TaskId)

  datatype Coordinator = Coordinator(key: Key, pc: Pc, arming: bool)

  /** `scheduled`, `stored` and `left` are history: every task ever scheduled, when it was stored, and how it left. */
  datatype Sys = Sys(
    now: int,
    store: map<Key, Entry>,
    coordinators: map<nat, Coordinator>,
    scheduled: map<TaskId, Key>,
    stored: map<TaskId, int>,
    left: map<TaskId, Cause>)

  datatype Step =
    | Start(c: nat, key: Key, arming: bool, readable: bool)
    | Revoke(c: nat)
    | ClearRead(c: nat, ok: bool)
    | ClearDelete(c: nat, ok: bool)
    | Schedule(c: nat, task: TaskId, ok: bool)
    | Put(c: nat, ok: bool)
    | Fire(task: TaskId, reachable: bool)
    | Pass(seconds: nat)
    | Crash(c: nat)

  const INIT := Sys(0, map[], map[], map[], map[], map[])

  predicate Pending(s: Sys, key: Key, task: TaskId) {
    key in s.store && s.store[key].task == task
  }

  predicate Enabled(s: Sys, step: Step) {
    match step
    case Start(c, key, arming, readable) => c !in s.coordinators
    case Revoke(c) => c in s.coordinators && s.coordinators[c].pc.Got?
    case ClearRead(c, ok) => c in s.coordinators && s.coordinators[c].pc.Revoked?
    case ClearDelete(c, ok) => c in s.coordinators && s.coordinators[c].pc.Clearing?
    case Schedule(c, task, ok) => c in s.coordinators && s.coordinators[c].pc.Scheduling? && task !in s.scheduled
    case Put(c, ok) => c in s.coordinators && s.coordinators[c].pc.Storing?
    case Fire(task, reachable) => task in s.scheduled
    case Pass(seconds) => true
    case Crash(c) => c in s.coordinators
  }

  /** After its cancel part a coordinator arms, or is done. */
  function Onward(s: Sys, c: nat, co: Coordinator): map<nat, Coordinator> {
    if co.arming then s.coordinators[c := co.(pc := Scheduling)] else s.coordinators - {c}
  }

  /** The store without the entry of `key`. */
  function Without(s: Sys, key: Key, cause: Cause): Sys {
    if key in s.store then s.(store := s.store - {key}, left := s.left[s.store[key].task := cause]) else s
  }

  /** `clear_if_match`: compare and delete in one script; an unreachable store clears nothing. */
  function CompareDelete(s: Sys, key: Key, task: TaskId): (Sys, bool) {
    if Pending(s, key, task) then (Without(s, key, Fired), true) else (s, false)
  }

  function Lapsing(s: Sys, now: int): set<Key> {
    set key | key in s.store && s.store[key].expires <= now
  }

  function Next(s: Sys, step: Step): Sys
    requires Enabled(s, step)
  {
    match step
    case Start(c, key, arming, readable) =>
      if readable && key in s.store
      then s.(coordinators := s.coordinators[c := Coordinator(key, Got(s.store[key].task), arming)])
      else s.(coordinators := Onward(s, c, Coordinator(key, Scheduling, arming)))
    case Revoke(c) =>
      var co := s.coordinators[c];
      s.(coordinators := s.coordinators[c := co.(pc := Revoked(co.pc.task))])
    case ClearRead(c, ok) =>
      var co := s.coordinators[c];
      s.(coordinators := if ok then s.coordinators[c := co.(pc := Clearing(co.pc.task))] else Onward(s, c, co))
    case ClearDelete(c, ok) =>
      var co := s.coordinators[c];
      (if ok then Without(s, co.key, Cancelled) else s).(coordinators := Onward(s, c, co))
    case Schedule(c, task, ok) =>
      var co := s.coordinators[c];
      if ok then s.(coordinators := s.coordinators[c := co.(pc := Storing(task))], scheduled := s.scheduled[task := co.key])
      else s.(coordinators := s.coordinators - {c})
    case Put(c, ok) =>
      var co := s.coordinators[c];
      if ok then
        var s1 := Without(s, co.key, Replaced);
        s1.(store := s1.store[co.key := Entry(co.pc.task, s.now + META_TTL)],
            stored := s.stored[co.pc.task := s.now],
            coordinators := s.coordinators - {c})
      else s.(coordinators := s.coordinators - {c})
    case Fire(task, reachable) => if reachable then CompareDelete(s, s.scheduled[task], task).0 else s
    case Pass(seconds) =>
      var now := s.now + seconds;
      s.(now := now,
         store := s.store - Lapsing(s, now),
         left := s.left + (map key | key in Lapsing(s, now) :: s.store[key].task := Lapsed))
    case Crash(c) => s.(coordinators := s.coordinators - {c})
  }

  ghost predicate Execution(s: Sys, steps: seq<Step>)
    decreases |steps|
  {
    steps == [] || (Enabled(s, steps[0]) && Execution(Next(s, steps[0]), steps[1..]))
  }

  function Exec(s: Sys, steps: seq<Step>): Sys
    requires Execution(s, steps)
    decreases |steps|
  {
    if steps == [] then s else Exec(Next(s, steps[0]), steps[1..])
  }

  // ---------------------------------------------------------------------
  // Every stored task leaves once
  // ---------------------------------------------------------------------

  ghost predicate Inv(s: Sys) {
    && (forall key | key in s.store ::
          var t := s.store[key].task;
          t in s.scheduled && s.scheduled[t] == key && t in s.stored && t !in s.left
          && s.store[key].expires == s.stored[t] + META_TTL > s.now)
    && (forall t | t in s.stored :: t in s.scheduled && (t in s.left || Pending(s, s.scheduled[t], t)))
    && (forall t | t in s.left :: t in s.stored && (s.left[t] == Lapsed ==> s.stored[t] + META_TTL <= s.now))
    && StoringOk(s)
  }

  /** A task waiting to be stored is its coordinator's own. */
  ghost predicate StoringOk(s: Sys) {
    && (forall c | c in s.coordinators && s.coordinators[c].pc.Storing? ::
          var t := s.coordinators[c].pc.task;
          t in s.scheduled && s.scheduled[t] == s.coordinators[c].key && t !in s.stored)
    && (forall c, d | c in s.coordinators && d in s.coordinators && c != d
                      && s.coordinators[c].pc.Storing? && s.coordinators[d].pc.Storing? ::
          s.coordinators[c].pc.task != s.coordinators[d].pc.task)
  }

  lemma WithoutKeeps(s: Sys, key: Key, cause: Cause)
    requires Inv(s) && cause != Lapsed
    ensures Inv(Without(s, key, cause)) && key !in Without(s, key, cause).store
  {
  }

  lemma CoordinatorKeeps(s: Sys, s': Sys)
    requires Inv(s) && s' == s.(coordinators := s'.coordinators) && StoringOk(s')
    ensures Inv(s')
  {
  }

  lemma PutKeeps(s: Sys, c: nat)
    requires Inv(s) && Enabled(s, Put(c, true))
    ensures Inv(Next(s, Put(c, true)))
  {
    var co := s.coordinators[c];
    WithoutKeeps(s, co.key, Replaced);
    var s1 := Without(s, co.key, Replaced);
    var s' := Next(s, Put(c, true));
    forall t | t in s'.stored
      ensures t in s'.scheduled && (t in s'.left || Pending(s', s'.scheduled[t], t))
    {
      if t != co.pc.task {
        assert t in s1.stored;
      }
    }
  }

  lemma PassKeeps(s: Sys, seconds: nat)
    requires Inv(s)
    ensures Inv(Next(s, Pass(seconds)))
  {
    var s' := Next(s, Pass(seconds));
    forall t | t in s'.left
      ensures t in s'.stored && (s'.left[t] == Lapsed ==> s'.stored[t] + META_TTL <= s'.now)
    {
      if t !in s.left {
        var key :| key in Lapsing(s, s'.now) && s.store[key].task == t;
      }
    }
    forall t | t in s'.stored
      ensures t in s'.scheduled && (t in s'.left || Pending(s', s'.scheduled[t], t))
    {
      if t !in s.left {
        var key := s.scheduled[t];
        assert Pending(s, key, t);
        if key in Lapsing(s, s'.now) {
          assert t in s'.left;
        }
      }
    }
    forall key | key in s'.store
      ensures s'.store[key].task !in s'.left
    {
      var t := s'.store[key].task;
      assert forall other | other in Lapsing(s, s'.now) :: s.scheduled[s.store[other].task] == other;
      assert s.scheduled[t] == key && key !in Lapsing(s, s'.now) && t !in s.left;
    }
  }

  lemma ScheduleKeeps(s: Sys, c: nat, task: TaskId)
    requires Inv(s) && Enabled(s, Schedule(c, task, true))
    ensures Inv(Next(s, Schedule(c, task, true)))
  {
    assert task !in s.stored && task !in s.left;
    assert forall key | key in s.store :: s.store[key].task != task;
  }

  lemma DeleteKeeps(s: Sys, c: nat, ok: bool)
    requires Inv(s) && Enabled(s, ClearDelete(c, ok))
    ensures Inv(Next(s, ClearDelete(c, ok)))
  {
    WithoutKeeps(s, s.coordinators[c].key, Cancelled);
    CoordinatorKeeps(if ok then Without(s, s.coordinators[c].key, Cancelled) else s, Next(s, ClearDelete(c, ok)));
  }

  lemma StepKeeps(s: Sys, step: Step)
    requires Inv(s) && Enabled(s, step)
    ensures Inv(Next(s, step))
  {
    match step {
      case ClearDelete(c, ok) => DeleteKeeps(s, c, ok);
      case Put(c, ok) =>
        if ok { PutKeeps(s, c); } else { CoordinatorKeeps(s, Next(s, step)); }
      case Fire(task, reachable) =>
        WithoutKeeps(s, s.scheduled[task], Fired);
      case Pass(seconds) => PassKeeps(s, seconds);
      case Schedule(c, task, ok) =>
        if ok { ScheduleKeeps(s, c, task); } else { CoordinatorKeeps(s, Next(s, step)); }
      case _ => CoordinatorKeeps(s, Next(s, step));
    }
  }

  /** A task that has left stays gone, for the same cause; a task once stored was stored once. */
  lemma StepRemembers(s: Sys, step: Step, t: TaskId)
    requires Inv(s) && Enabled(s, step)
    ensures t in s.left ==> t in Next(s, step).left && Next(s, step).left[t] == s.left[t]
    ensures t in s.stored ==> t in Next(s, step).stored && Next(s, step).stored[t] == s.stored[t]
  {
    if step.Pass? && t in s.left {
      assert forall key | key in Lapsing(s, s.now + step.seconds) :: s.store[key].task != t;
    }
  }

  lemma {:induction false} LeavesOnce(s: Sys, steps: seq<Step>, t: TaskId)
    requires Inv(s) && Execution(s, steps)
    ensures var s' := Exec(s, steps);
      && Inv(s')
      && (t in s.stored ==> t in s'.stored && s'.stored[t] == s.stored[t])
      && (t in s.left ==> t in s'.left && s'.left[t] == s.left[t])
    decreases |steps|
  {
    if steps != [] {
      StepKeeps(s, steps[0]);
      StepRemembers(s, steps[0], t);
      LeavesOnce(Next(s, steps[0]), steps[1..], t);
    }
  }

  /**
   * In every run each stored task is either pending under its own key or has left the store for exactly one reason,
   * it lapsed only after its full time to live, and no key holds two tasks nor two keys one task.
   */
  lemma PendingOrLeft(steps: seq<Step>, t: TaskId)
    requires Execution(INIT, steps)
    ensures var s := Exec(INIT, steps);
      && (t in s.stored ==> t in s.scheduled && (t in s.left <==> !Pending(s, s.scheduled[t], t)))
      && (t !in s.stored ==> t !in s.left && forall key :: !Pending(s, key, t))
      && (t in s.left && s.left[t] == Lapsed ==> s.stored[t] + META_TTL <= s.now)
      && (forall k, l :: Pending(s, k, t) && Pending(s, l, t) ==> k == l)
  {
    LeavesOnce(INIT, steps, t);
  }

  /** The store holds what it held, except under one key. */
  ghost predicate OthersStay(s: Sys, s': Sys, key: Key) {
    forall k | k != key :: (k in s'.store <==> k in s.store) && (k in s.store ==> s'.store[k] == s.store[k])
  }

  /**
   * A fire takes effect exactly when the store answers and its task was stored less than the time to live ago and was
   * neither cancelled, replaced nor fired before; it then removes that one timer. A fire without effect, such as a
   * stale one, changes nothing.
   */
  lemma FireTakesEffect(steps: seq<Step>, t: TaskId, reachable: bool)
    requires Execution(INIT, steps) && t in Exec(INIT, steps).scheduled
    ensures var s := Exec(INIT, steps);
      var s' := Next(s, Fire(t, reachable));
      var cleared := reachable && t in s.stored && s.now < s.stored[t] + META_TTL
                     && !(t in s.left && s.left[t] in {Cancelled, Replaced, Fired});
      && (!cleared ==> s' == s)
      && (cleared ==>
            && Pending(s, s.scheduled[t], t) && s.scheduled[t] !in s'.store && OthersStay(s, s', s.scheduled[t])
            && t in s'.left && s'.left[t] == Fired && s'.coordinators == s.coordinators)
  {
    LeavesOnce(INIT, steps, t);
  }

  /** A stored timer is the pending one of its key, with its full time to live; the one it replaces has left. */
  lemma PutStores(steps: seq<Step>, c: nat)
    requires Execution(INIT, steps) && Enabled(Exec(INIT, steps), Put(c, true))
    ensures var s := Exec(INIT, steps);
      var s' := Next(s, Put(c, true));
      var co := s.coordinators[c];
      && Pending(s', co.key, co.pc.task) && s'.store[co.key].expires == s.now + META_TTL
      && co.pc.task in s'.scheduled && s'.scheduled[co.pc.task] == co.key && OthersStay(s, s', co.key)
      && (co.key in s.store ==>
            s.store[co.key].task != co.pc.task && s.store[co.key].task in s'.left && s'.left[s.store[co.key].task] == Replaced)
  {
    LeavesOnce(INIT, steps, 0);
  }

  /** A cancel that reaches the store leaves nothing pending under its key, and every other key as it was. */
  lemma CancelClears(s: Sys, c: nat)
    requires Enabled(s, ClearDelete(c, true))
    ensures var s' := Next(s, ClearDelete(c, true));
      var key := s.coordinators[c].key;
      && key !in s'.store && (forall t :: !Pending(s', key, t)) && OthersStay(s, s', key)
      && (key in s.store ==> s.store[key].task in s'.left && s'.left[s.store[key].task] == Cancelled)
  {
  }

  /**
   * Where a coordinator goes on after a call that failed: whatever kept it from cancelling, it still arms if it was
   * to arm; a task that was not scheduled or not stored makes it give up. The store is as it was.
   */
  lemma FailureMeans(s: Sys, step: Step)
    requires Enabled(s, step)
    requires match step
      case Start(_, _, _, readable) => !readable
      case ClearRead(_, ok) => !ok
      case ClearDelete(_, ok) => !ok
      case Schedule(_, _, ok) => !ok
      case Put(_, ok) => !ok
      case _ => false
    ensures var s' := Next(s, step);
      && s'.store == s.store && s'.left == s.left && s'.stored == s.stored && s'.scheduled == s.scheduled
      && (forall d | d != step.c :: (d in s'.coordinators <==> d in s.coordinators)
                                    && (d in s.coordinators ==> s'.coordinators[d] == s.coordinators[d]))
      && var arming := if step.Start? then step.arming
                       else (step.ClearRead? || step.ClearDelete?) && s.coordinators[step.c].arming;
         && (!arming ==> step.c !in s'.coordinators)
         && (arming ==>
               && step.c in s'.coordinators && s'.coordinators[step.c].pc == Scheduling && s'.coordinators[step.c].arming
               && s'.coordinators[step.c].key == if step.Start? then step.key else s.coordinators[step.c].key)
  {
  }

  // ---------------------------------------------------------------------
  // One coordinator per key
  // ---------------------------------------------------------------------

  /** The queue runs at most one message of a user and scope at a time, and its coordinator with it. */
  predicate SerialStep(s: Sys, step: Step) {
    step.Start? ==> forall c | c in s.coordinators :: s.coordinators[c].key != step.key
  }

  ghost predicate Serial(s: Sys, steps: seq<Step>)
    requires Execution(s, steps)
    decreases |steps|
  {
    steps != [] ==> SerialStep(s, steps[0]) && Serial(Next(s, steps[0]), steps[1..])
  }

  predicate Cancelling(pc: Pc) {
    pc.Got? || pc.Revoked? || pc.Clearing?
  }

  /** What a cancelling coordinator read is still there, or nothing is. */
  ghost predicate CancelOk(s: Sys) {
    && (forall c, d | c in s.coordinators && d in s.coordinators && c != d :: s.coordinators[c].key != s.coordinators[d].key)
    && (forall c | c in s.coordinators && Cancelling(s.coordinators[c].pc) ::
          s.coordinators[c].key in s.store ==> s.store[s.coordinators[c].key].task == s.coordinators[c].pc.task)
  }

  /** Entries may go, coordinators may leave or move on, but none reads another task or changes its key. */
  lemma CancelShrinks(s: Sys, s': Sys)
    requires CancelOk(s)
    requires forall key | key in s'.store :: key in s.store && s'.store[key] == s.store[key]
    requires forall c | c in s'.coordinators ::
      && c in s.coordinators && s'.coordinators[c].key == s.coordinators[c].key
      && (Cancelling(s'.coordinators[c].pc) ==>
            Cancelling(s.coordinators[c].pc) && s'.coordinators[c].pc.task == s.coordinators[c].pc.task)
    ensures CancelOk(s')
  {
  }

  lemma StartKeepsCancel(s: Sys, c: nat, key: Key, arming: bool, readable: bool)
    requires CancelOk(s) && Enabled(s, Start(c, key, arming, readable)) && SerialStep(s, Start(c, key, arming, readable))
    ensures CancelOk(Next(s, Start(c, key, arming, readable)))
  {
  }

  lemma PutKeepsCancel(s: Sys, c: nat)
    requires CancelOk(s) && Enabled(s, Put(c, true))
    ensures CancelOk(Next(s, Put(c, true)))
  {
    var s' := Next(s, Put(c, true));
    assert forall d | d in s'.coordinators :: s'.coordinators[d] == s.coordinators[d] && d != c;
    assert forall key | key in s'.store && key != s.coordinators[c].key :: s'.store[key] == s.store[key];
  }

  lemma CancelStepKeeps(s: Sys, step: Step)
    requires CancelOk(s) && Enabled(s, step) && SerialStep(s, step)
    ensures CancelOk(Next(s, step))
  {
    match step
    case Start(c, key, arming, readable) => StartKeepsCancel(s, c, key, arming, readable);
    case Put(c, ok) => if ok { PutKeepsCancel(s, c); } else { CancelShrinks(s, Next(s, step)); }
    case _ => CancelShrinks(s, Next(s, step));
  }

  lemma {:induction false} CancelHolds(s: Sys, steps: seq<Step>)
    requires CancelOk(s) && Execution(s, steps) && Serial(s, steps)
    ensures CancelOk(Exec(s, steps))
    decreases |steps|
  {
    if steps != [] {
      CancelStepKeeps(s, steps[0]);
      CancelHolds(Next(s, steps[0]), steps[1..]);
    }
  }

  /** With one coordinator per key, a cancel spares every timer other than the one it read. */
  lemma CancelSparesNewer(steps: seq<Step>, c: nat, ok: bool)
    requires Execution(INIT, steps) && Serial(INIT, steps) && Enabled(Exec(INIT, steps), ClearDelete(c, ok))
    ensures var s := Exec(INIT, steps);
      var s' := Next(s, ClearDelete(c, ok));
      forall key, t | Pending(s, key, t) && t != s.coordinators[c].pc.task :: Pending(s', key, t)
  {
    CancelHolds(INIT, steps);
  }

  /** What a cancelling coordinator read was stored under its key. */
  ghost predicate ReadsStored(s: Sys) {
    forall c | c in s.coordinators && Cancelling(s.coordinators[c].pc) ::
      var t := s.coordinators[c].pc.task;
      t in s.stored && t in s.scheduled && s.scheduled[t] == s.coordinators[c].key
  }

  lemma ReadsStoredStep(s: Sys, step: Step)
    requires Inv(s) && ReadsStored(s) && Enabled(s, step)
    ensures ReadsStored(Next(s, step))
  {
  }

  lemma {:induction false} ReadsStoredAlways(s: Sys, steps: seq<Step>)
    requires Inv(s) && ReadsStored(s) && Execution(s, steps)
    ensures ReadsStored(Exec(s, steps))
    decreases |steps|
  {
    if steps != [] {
      StepKeeps(s, steps[0]);
      ReadsStoredStep(s, steps[0]);
      ReadsStoredAlways(Next(s, steps[0]), steps[1..]);
    }
  }

  /**
   * With one coordinator per key, a cancel that reaches the store removes exactly the timer it read: that task has
   * left, as cancelled if it was still pending, nothing is pending under the key, every other key is as it was, and
   * whatever happens later, a fire of the task changes nothing any more.
   */
  lemma CancelRemovesRead(steps: seq<Step>, c: nat, later: seq<Step>, reachable: bool)
    requires Execution(INIT, steps) && Serial(INIT, steps) && Enabled(Exec(INIT, steps), ClearDelete(c, true))
    requires Execution(Next(Exec(INIT, steps), ClearDelete(c, true)), later)
    ensures var s := Exec(INIT, steps);
      var s' := Next(s, ClearDelete(c, true));
      var co := s.coordinators[c];
      var after := Exec(s', later);
      && s'.store == s.store - {co.key} && co.pc.task in s'.left
      && (Pending(s, co.key, co.pc.task) ==> s'.left[co.pc.task] == Cancelled)
      && Enabled(after, Fire(co.pc.task, reachable)) && Next(after, Fire(co.pc.task, reachable)) == after
  {
    CancelHolds(INIT, steps);
    LeavesOnce(INIT, steps, 0);
    ReadsStoredAlways(INIT, steps);
    var s := Exec(INIT, steps);
    CancelLeaves(s, c);
    FiresNoMore(Next(s, ClearDelete(c, true)), later, s.coordinators[c].pc.task, reachable);
  }

  lemma CancelLeaves(s: Sys, c: nat)
    requires Inv(s) && CancelOk(s) && ReadsStored(s) && Enabled(s, ClearDelete(c, true))
    ensures var s' := Next(s, ClearDelete(c, true));
      var co := s.coordinators[c];
      && Inv(s') && s'.store == s.store - {co.key} && co.pc.task in s'.left && co.pc.task in s'.scheduled
      && (Pending(s, co.key, co.pc.task) ==> s'.left[co.pc.task] == Cancelled)
  {
    CancelClears(s, c);
    StepKeeps(s, ClearDelete(c, true));
  }

  /** A task that has left can be fired as often as one likes. */
  lemma FiresNoMore(s: Sys, later: seq<Step>, t: TaskId, reachable: bool)
    requires Inv(s) && Execution(s, later) && t in s.left && t in s.scheduled
    ensures var after := Exec(s, later);
      Enabled(after, Fire(t, reachable)) && Next(after, Fire(t, reachable)) == after
  {
    ScheduledStays(s, later, t);
    LeavesOnce(s, later, t);
  }

  lemma {:induction false} ScheduledStays(s: Sys, steps: seq<Step>, t: TaskId)
    requires Execution(s, steps) && t in s.scheduled
    ensures t in Exec(s, steps).scheduled
    decreases |steps|
  {
    if steps != [] {
      ScheduledStays(Next(s, steps[0]), steps[1..], t);
    }
  }

  /** Coordinator 1 read task 0 and is about to delete task 1. */
  ghost predicate Raced(s: Sys, key: Key) {
    && Enabled(s, ClearDelete(1, true)) && s.coordinators[1].pc == Clearing(0)
    && Pending(s, key, 1) && key !in Next(s, ClearDelete(1, true)).store
  }

  /** Without it, a slow cancel deletes a timer armed after what it read. */
  lemma RacingCancelLosesTimer(key: Key)
    ensures exists steps :: Execution(INIT, steps) && Raced(Exec(INIT, steps), key)
  {
    var armed := ArmFirst(key);
    var slow := SlowCancel(armed.1, key);
    var raced := RaceOn(slow.1, key);
    Append(armed.1, slow.0, slow.1, raced.0, raced.1);
    Append(INIT, armed.0, armed.1, slow.0 + raced.0, raced.1);
  }

  /** One coordinator arms task 0. */
  lemma ArmFirst(key: Key) returns (r: (seq<Step>, Sys))
    ensures Leads(INIT, r.0, r.1)
    ensures r.1.store == map[key := Entry(0, META_TTL)] && r.1.coordinators == map[] && r.1.scheduled == map[0 := key]
  {
    var s0 := Next(INIT, Start(0, key, true, true));
    var s1 := Next(s0, Schedule(0, 0, true));
    var s2 := Next(s1, Put(0, true));
    var t := Chain(s1, Put(0, true), [], s2);
    t := Chain(s0, Schedule(0, 0, true), t, s2);
    t := Chain(INIT, Start(0, key, true, true), t, s2);
    r := (t, s2);
  }

  /** A second one reads task 0 to cancel it. */
  lemma SlowCancel(s: Sys, key: Key) returns (r: (seq<Step>, Sys))
    requires s.store == map[key := Entry(0, META_TTL)] && s.coordinators == map[] && s.scheduled == map[0 := key]
    ensures Leads(s, r.0, r.1) && r.1.store == s.store && r.1.scheduled == s.scheduled
    ensures r.1.coordinators == map[1 := Coordinator(key, Clearing(0), false)]
  {
    var s3 := Next(s, Start(1, key, false, true));
    var s4 := Next(s3, Revoke(1));
    var s5 := Next(s4, ClearRead(1, true));
    var t := Chain(s4, ClearRead(1, true), [], s5);
    t := Chain(s3, Revoke(1), t, s5);
    t := Chain(s, Start(1, key, false, true), t, s5);
    r := (t, s5);
  }

  /** A third one cancels it and arms task 1 before the second deletes. */
  lemma RaceOn(s: Sys, key: Key) returns (r: (seq<Step>, Sys))
    requires s.store == map[key := Entry(0, META_TTL)] && s.scheduled == map[0 := key]
    requires s.coordinators == map[1 := Coordinator(key, Clearing(0), false)]
    ensures Leads(s, r.0, r.1)
    ensures Enabled(r.1, ClearDelete(1, true)) && r.1.coordinators[1] == Coordinator(key, Clearing(0), false)
    ensures Pending(r.1, key, 1)
  {
    var s6 := Next(s, Start(2, key, true, true));
    var s7 := Next(s6, Revoke(2));
    var s8 := Next(s7, ClearRead(2, true));
    var s9 := Next(s8, ClearDelete(2, true));
    var s10 := Next(s9, Schedule(2, 1, true));
    var s11 := Next(s10, Put(2, true));
    var t := Chain(s10, Put(2, true), [], s11);
    t := Chain(s9, Schedule(2, 1, true), t, s11);
    t := Chain(s8, ClearDelete(2, true), t, s11);
    t := Chain(s7, ClearRead(2, true), t, s11);
    t := Chain(s6, Revoke(2), t, s11);
    t := Chain(s, Start(2, key, true, true), t, s11);
    r := (t, s11);
  }

  lemma Append(s: Sys, a: seq<Step>, mid: Sys, b: seq<Step>, end: Sys)
    requires Leads(s, a, mid) && Leads(mid, b, end)
    ensures Leads(s, a + b, end)
    decreases |a|
  {
    if a == [] {
      assert a + b == b;
    } else {
      assert (a + b)[1..] == a[1..] + b;
      Append(Next(s, a[0]), a[1..], mid, b, end);
    }
  }

  ghost predicate Leads(s: Sys, steps: seq<Step>, end: Sys) {
    Execution(s, steps) && Exec(s, steps) == end
  }

  lemma Chain(s: Sys, step: Step, rest: seq<Step>, end: Sys) returns (steps: seq<Step>)
    requires Enabled(s, step) && Leads(Next(s, step), rest, end)
    ensures Leads(s, steps, end)
  {
    steps := [step] + rest;
    assert steps[1..] == rest;
  }

  /**
   * A coordinator that is not disturbed does what it is for: after a cancel nothing is pending under its key, after
   * an arm exactly the new task is, with its full time to live; a timer that was pending has left as cancelled; and
   * every other key, and every other coordinator, is as it was.
   */
  lemma CoordinatorWorks(s: Sys, c: nat, key: Key, arming: bool, task: TaskId) returns (steps: seq<Step>, end: Sys)
    requires c !in s.coordinators && task !in s.scheduled
    ensures Leads(s, steps, end) && OthersStay(s, end, key) && end.coordinators == s.coordinators
    ensures !arming ==> key !in end.store
    ensures arming ==> key in end.store && end.store[key] == Entry(task, s.now + META_TTL)
    ensures key in s.store ==> s.store[key].task in end.left && end.left[s.store[key].task] == Cancelled
  {
    var cleared := CancelPart(s, c, key, arming);
    if arming {
      var armed := ArmPart(cleared.1, c, key, task);
      Append(s, cleared.0, cleared.1, armed.0, armed.1);
      steps, end := cleared.0 + armed.0, armed.1;
      assert cleared.1.coordinators - {c} == s.coordinators;
    } else {
      steps, end := cleared.0, cleared.1;
    }
  }

  lemma CancelPart(s: Sys, c: nat, key: Key, arming: bool) returns (r: (seq<Step>, Sys))
    requires c !in s.coordinators
    ensures Leads(s, r.0, r.1) && r.1.now == s.now && r.1.scheduled == s.scheduled && r.1.stored == s.stored
    ensures r.1.coordinators ==
      if arming then s.coordinators[c := Coordinator(key, Scheduling, true)] else s.coordinators
    ensures r.1.store == s.store - {key}
    ensures r.1.left == if key in s.store then s.left[s.store[key].task := Cancelled] else s.left
  {
    var s1 := Next(s, Start(c, key, arming, true));
    if key in s.store {
      var s2 := Next(s1, Revoke(c));
      var s3 := Next(s2, ClearRead(c, true));
      var s4 := Next(s3, ClearDelete(c, true));
      var t := Chain(s3, ClearDelete(c, true), [], s4);
      t := Chain(s2, ClearRead(c, true), t, s4);
      t := Chain(s1, Revoke(c), t, s4);
      t := Chain(s, Start(c, key, arming, true), t, s4);
      r := (t, s4);
    } else {
      var t := Chain(s, Start(c, key, arming, true), [], s1);
      r := (t, s1);
    }
  }

  lemma ArmPart(s: Sys, c: nat, key: Key, task: TaskId) returns (r: (seq<Step>, Sys))
    requires c in s.coordinators && s.coordinators[c] == Coordinator(key, Scheduling, true)
    requires task !in s.scheduled && key !in s.store
    ensures Leads(s, r.0, r.1) && r.1.coordinators == s.coordinators - {c} && r.1.left == s.left
    ensures r.1.store == s.store[key := Entry(task, s.now + META_TTL)]
  {
    var s1 := Next(s, Schedule(c, task, true));
    var s2 := Next(s1, Put(c, true));
    var t := Chain(s1, Put(c, true), [], s2);
    t := Chain(s, Schedule(c, task, true), t, s2);
    r := (t, s2);
  }

  // ---------------------------------------------------------------------
  // The store and the markers
  // ---------------------------------------------------------------------

  /** The entries a reader sees: those that have not expired. */
  function Live(entries: map<Key, Entry>, now: int): map<Key, Entry> {
    map key | key in entries && now < entries[key].expires :: entries[key]
  }

  class RedisPendingTimerStore {
    var entries: map<Key, Entry>

    constructor ()
      ensures entries == map[]
    {
      entries := map[];
    }

    method Arm(key: Key, task: TaskId, now: int)
      modifies this
      ensures entries == old(entries)[key := Entry(task, now + META_TTL)]
      ensures Live(entries, now) == Live(old(entries), now)[key := Entry(task, now + META_TTL)]
    {
      entries := entries[key := Entry(task, now + META_TTL)];
    }

    method Get(key: Key, now: int) returns (task: Option<TaskId>)
      ensures task == if key in Live(entries, now) then Some(entries[key].task) else None
    {
      task := if key in entries && now < entries[key].expires then Some(entries[key].task) else None;
    }

    /** GET, then DEL: the two commands of `clear`, with nothing in between. */
    method Clear(key: Key, now: int) returns (task: Option<TaskId>)
      modifies this
      ensures task == if key in Live(old(entries), now) then Some(old(entries)[key].task) else None
      ensures entries == old(entries) - {key} && Live(entries, now) == Live(old(entries), now) - {key}
    {
      task := Get(key, now);
      entries := entries - {key};
    }

    /** The compare-and-delete script does to the live entries what the protocol's fire does. */
    method ClearIfMatch(key: Key, task: TaskId, now: int) returns (cleared: bool)
      modifies this
      ensures forall s: Sys | s.store == Live(old(entries), now) ::
        CompareDelete(s, key, task).1 == cleared && CompareDelete(s, key, task).0.store == Live(entries, now)
    {
      var stored := Get(key, now);
      cleared := stored == Some(task);
      if cleared {
        entries := entries - {key};
      }
    }
  }

  datatype Marker = Marker(action: string, state: string, recordId: string)

  datatype Plan = Arm(marker: Marker) | Cancel | Ignore

  predicate IsArm(m: Marker) {
    m.action == "arm"
  }

  /** `apply_markers`: the last arm marker wins over any cancel; one without a state does nothing at all. */
  method PlanFor(markers: seq<Marker>) returns (p: Plan)
    ensures (forall m | m in markers :: !IsArm(m)) ==>
      p == if exists m :: m in markers && m.action == "cancel" then Cancel else Ignore
    ensures forall k | 0 <= k < |markers| && IsArm(markers[k]) && (forall l | k < l < |markers| :: !IsArm(markers[l])) ::
      p == if markers[k].state == "" then Ignore else Arm(markers[k])
  {
    var last := None;
    var cancels := false;
    var k := 0;
    while k < |markers|
      invariant 0 <= k <= |markers|
      invariant last.None? ==> forall l | 0 <= l < k :: !IsArm(markers[l])
      invariant last.Some? ==> exists l :: 0 <= l < k && last.value == markers[l] && IsArm(markers[l])
                                 && forall n | l < n < k :: !IsArm(markers[n])
      invariant cancels <==> exists l :: 0 <= l < k && markers[l].action == "cancel"
    {
      if markers[k].action == "arm" {
        last := Some(markers[k]);
      }
      if markers[k].action == "cancel" {
        cancels := true;
      }
      k := k + 1;
    }
    if last.Some? {
      p := if last.value.state == "" then Ignore else Arm(last.value);
    } else {
      p := if cancels then Cancel else Ignore;
    }
  }
}
