/**
 * How often a message can be answered: the dedup bracket of
 * `MessageProcessor.process` (app/services/message_processor.py) under the lock.
 */
module DeliveryReplies {
  import opened Wrappers
  import opened QueueState
  import opened Delivery
  import opened DeliveryLocks
  import opened DeliveryHeld

  /** All accepted messages with this id come from one (user, scope). */
  ghost predicate SameSender(q: Queues, m: string) {
    forall i, j | 0 <= i < |q.log| && 0 <= j < |q.log|
      && DedupKey(q.log[i].inbound) == DedupKey(q.log[j].inbound) == m ::
      KeyOf(q.log[i].inbound) == KeyOf(q.log[j].inbound)
  }

  /** The message's done key, if set, is still within its window. */
  predicate WithinWindow(s: Sys, m: string) {
    m in s.dones ==> s.now < s.dones[m]
  }

  ghost predicate Orderly(s: Sys, m: string) {
    Timely(s) && SameSender(s.q, m) && WithinWindow(s, m)
  }

  ghost function OrderlyFor(m: string): Sys -> bool {
    s => Orderly(s, m)
  }

  /** Neither the lock nor the dedup acquire of the message fails open. */
  predicate NoFailOpen(s: Sys, a: Action, m: string) {
    && NoLockFault(s, a)
    && (a.OfWorker? && a.wstep.AcquireStep? && a.w < |s.workers| && DedupKey(s.workers[a.w].raw.inbound) == m ==>
          a.wstep.f == NoFault)
  }

  function NoFailOpenFor(m: string): (Sys, Action) -> bool {
    (s, a) => NoFailOpen(s, a, m)
  }

  /** A worker between a successful send and its mark_done. */
  predicate SentUnmarked(me: Worker, m: string) {
    me.pc == Marking && me.sent && DedupKey(me.raw.inbound) == m
  }

  function Unmarked(ws: seq<Worker>, m: string): nat {
    if ws == [] then 0
    else Unmarked(ws[..|ws| - 1], m) + (if SentUnmarked(ws[|ws| - 1], m) then 1 else 0)
  }

  /** Runs cut off there because their process crashed. */
  function Crashed(ws: seq<Worker>, phases: seq<Phase>, m: string): nat {
    if ws == [] then 0
    else
      var me := ws[|ws| - 1];
      Crashed(ws[..|ws| - 1], phases, m)
      + (if SentUnmarked(me, m) && !(me.c < |phases| && Running(phases[me.c])) then 1 else 0)
  }

  function Sends(s: Sys, m: string): nat {
    Lookup(s.h.sends, m, 0)
  }

  function Breaks(s: Sys, m: string): nat {
    Lookup(s.h.breaks, m, 0)
  }

  ghost predicate SendsCovered(s: Sys, m: string) {
    Sends(s, m) <= (if m in s.dones then 1 else 0) + Breaks(s, m) + Unmarked(s.workers, m)
  }

  /** Acquired and not yet marked. */
  predicate Pending(pc: Pc) {
    pc in {CancellingTimer, Reading, Working, Marking}
  }

  ghost predicate PendingUndone(s: Sys, m: string) {
    forall w: nat | LiveWorker(s, w) && Pending(s.workers[w].pc) && DedupKey(s.workers[w].raw.inbound) == m ::
      m !in s.dones
  }

  ghost predicate RepliesInv(s: Sys, m: string) {
    LockInv(s) && ListsKnown(s.q) && HeldKnown(s) && SendsCovered(s, m) && PendingUndone(s, m)
  }

  lemma SameRun(s: Sys, v: nat, w: nat, m: string)
    requires LockInv(s) && HeldKnown(s) && SameSender(s.q, m)
    requires LiveWorker(s, v) && LiveWorker(s, w) && Inside(s.workers[v].pc) && Inside(s.workers[w].pc)
    requires DedupKey(s.workers[v].raw.inbound) == DedupKey(s.workers[w].raw.inbound) == m
    ensures v == w
  {
    assert WorkerKey(s, v) == WorkerKey(s, w) by {
      assert WorkerKnown(s.q.log, s.workers[v]) && WorkerKnown(s.q.log, s.workers[w]);
    }
    if v != w {
      MutualExclusion(s, v, w);
    }
  }

  lemma {:induction false} LockedAlways(s: Sys, acts: seq<Action>)
    requires Execution(s, acts) && Along(s, acts, Timely, NoLockFault)
    requires LockInv(s) && ListsKnown(s.q) && HeldKnown(s)
    ensures LockInv(Exec(s, acts)) && ListsKnown(Exec(s, acts).q) && HeldKnown(Exec(s, acts))
    decreases |acts|
  {
    if acts != [] {
      LockStepInv(s, acts[0]);
      StepIsOp(s, acts[0]);
      ListsKnownStep(s.q, OpOf(s, acts[0]));
      HeldKnownStep(s, acts[0]);
      LockedAlways(Next(s, acts[0]), acts[1..]);
    }
  }

  /**
   * In every execution without failing lock commands and with runs that end within their lease: at most one live run
   * is processing a message whose deliveries come from one sender.
   */
  lemma OneRunPerMessage(cfg: Config, acts: seq<Action>, m: string)
    requires Execution(Init(cfg), acts) && Along(Init(cfg), acts, Timely, NoLockFault)
    requires SameSender(Exec(Init(cfg), acts).q, m)
    ensures var s := Exec(Init(cfg), acts);
      forall v: nat, w: nat | LiveWorker(s, v) && LiveWorker(s, w)
        && Inside(s.workers[v].pc) && Inside(s.workers[w].pc)
        && DedupKey(s.workers[v].raw.inbound) == DedupKey(s.workers[w].raw.inbound) == m :: v == w
  {
    LockedAlways(Init(cfg), acts);
    var s := Exec(Init(cfg), acts);
    forall v: nat, w: nat | LiveWorker(s, v) && LiveWorker(s, w)
      && Inside(s.workers[v].pc) && Inside(s.workers[w].pc)
      && DedupKey(s.workers[v].raw.inbound) == DedupKey(s.workers[w].raw.inbound) == m
      ensures v == w
    {
      SameRun(s, v, w, m);
    }
  }

  lemma {:induction false} UnmarkedUpdate(ws: seq<Worker>, w: nat, me: Worker, m: string)
    requires w < |ws|
    ensures Unmarked(ws[w := me], m) + (if SentUnmarked(ws[w], m) then 1 else 0)
         == Unmarked(ws, m) + (if SentUnmarked(me, m) then 1 else 0)
  {
    var n := |ws| - 1;
    if w < n {
      UnmarkedUpdate(ws[..n], w, me, m);
      assert ws[w := me][..n] == ws[..n][w := me];
    } else {
      assert ws[w := me][..n] == ws[..n];
    }
  }

  lemma SendsCoveredWorker(s: Sys, w: nat, step: WorkerStep, m: string)
    requires WorkerEnabled(s, w, step) && PendingUndone(s, m) && SendsCovered(s, m)
    ensures SendsCovered(WorkerNext(s, w, step), m)
  {
    UnmarkedUpdate(s.workers, w, WorkerAfter(s, w, step), m);
    assert LiveWorker(s, w);
  }

  lemma SendsCoveredOther(s: Sys, a: Action, m: string)
    requires Enabled(s, a) && !a.OfWorker?
    ensures Next(s, a).h == s.h && Next(s, a).dones == s.dones
    ensures Unmarked(Next(s, a).workers, m) == Unmarked(s.workers, m)
  {
    if a.OfConsumer? && a.cstep.Spawn? {
      assert Next(s, a).workers[..|s.workers|] == s.workers;
    }
  }

  lemma SendsCoveredStep(s: Sys, a: Action, m: string)
    requires Enabled(s, a) && PendingUndone(s, m) && SendsCovered(s, m)
    ensures SendsCovered(Next(s, a), m)
  {
    if a.OfWorker? {
      SendsCoveredWorker(s, a.w, a.wstep, m);
    } else {
      SendsCoveredOther(s, a, m);
    }
  }

  /** A worker comes to be pending on a message by acquiring it, and stays so until it marks it. */
  lemma PendingWorker(s: Sys, w: nat, step: WorkerStep, m: string)
    requires WorkerEnabled(s, w, step) && PendingUndone(s, m) && WithinWindow(s, m)
    requires NoFailOpen(s, OfWorker(w, step), m) && Pending(WorkerAfter(s, w, step).pc)
    requires DedupKey(WorkerAfter(s, w, step).raw.inbound) == m
    ensures m !in DonesAfter(s, w, step)
  {
    assert LiveWorker(s, w);
  }

  lemma PendingStep(s: Sys, a: Action, m: string)
    requires Enabled(s, a) && RepliesInv(s, m) && Orderly(s, m) && NoFailOpen(s, a, m)
    ensures PendingUndone(Next(s, a), m)
  {
    var s' := Next(s, a);
    forall v: nat | LiveWorker(s', v) && Pending(s'.workers[v].pc) && DedupKey(s'.workers[v].raw.inbound) == m
      ensures m !in s'.dones
    {
      if a.OfWorker? && a.w == v {
        PendingWorker(s, v, a.wstep, m);
      } else {
        assert LiveWorker(s, v) && s.workers[v] == s'.workers[v];
        if a.OfWorker? && a.wstep.MarkStep? && DedupKey(s.workers[a.w].raw.inbound) == m {
          SameRun(s, v, a.w, m);
        }
      }
    }
  }

  lemma {:induction false} RepliesAlways(s: Sys, acts: seq<Action>, m: string)
    requires Execution(s, acts) && Along(s, acts, OrderlyFor(m), NoFailOpenFor(m)) && RepliesInv(s, m)
    ensures RepliesInv(Exec(s, acts), m) && Orderly(Exec(s, acts), m)
    decreases |acts|
  {
    assert OrderlyFor(m)(s);
    if acts != [] {
      var a := acts[0];
      assert NoFailOpenFor(m)(s, a);
      LockStepInv(s, a);
      StepIsOp(s, a);
      ListsKnownStep(s.q, OpOf(s, a));
      HeldKnownStep(s, a);
      SendsCoveredStep(s, a, m);
      PendingStep(s, a, m);
      RepliesAlways(Next(s, a), acts[1..], m);
    }
  }

  /** The unmarked runs are the crashed ones and at most one of a running consumer. */
  lemma {:induction false} UnmarkedSplit(s: Sys, n: nat, m: string)
    requires LockInv(s) && HeldKnown(s) && SameSender(s.q, m) && n <= |s.workers|
    ensures Unmarked(s.workers[..n], m) <= Crashed(s.workers[..n], s.phases, m) + 1
    ensures Unmarked(s.workers[..n], m) == Crashed(s.workers[..n], s.phases, m)
         || exists w: nat :: w < n && LiveWorker(s, w) && SentUnmarked(s.workers[w], m)
  {
    if n > 0 {
      UnmarkedSplit(s, n - 1, m);
      assert s.workers[..n][..n - 1] == s.workers[..n - 1];
      if LiveWorker(s, n - 1) && SentUnmarked(s.workers[n - 1], m) {
        if w: nat :| w < n - 1 && LiveWorker(s, w) && SentUnmarked(s.workers[w], m) {
          SameRun(s, w, n - 1, m);
        }
      }
    }
  }

  /**
   * Replies per message: as long as the message's own done key has not run out, its deliveries have one sender, and
   * neither the lock nor its acquire fails open, it gets at most one successful send plus one for each time a run of
   * it was interrupted, or its mark_done was lost, between `adapter.send` and `mark_done`. A failure after mark_done
   * adds none.
   */
  lemma RepliesBounded(cfg: Config, acts: seq<Action>, m: string)
    requires Execution(Init(cfg), acts) && Along(Init(cfg), acts, OrderlyFor(m), NoFailOpenFor(m))
    ensures var s := Exec(Init(cfg), acts);
      Sends(s, m) <= 1 + Breaks(s, m) + Crashed(s.workers, s.phases, m)
  {
    RepliesAlways(Init(cfg), acts, m);
    var s := Exec(Init(cfg), acts);
    UnmarkedSplit(s, |s.workers|, m);
    assert s.workers[..|s.workers|] == s.workers;
  }
}
