/**
 * The dead-letter list: which deliveries end there, and which are worked on (app/services/message_queue.py:402-493).
 */
module DeliveryDead {
  import opened Wrappers
  import opened QueueState
  import opened Delivery
  import opened DeliveryLocks

  /** Past decoding: waiting for the lock, inside `process`, or booking its result. */
  predicate Handling(pc: Pc) {
    Inside(pc) || pc in {Locking, Yielding, Unlocking, Acking, Retrying}
  }

  ghost predicate WorkersSorted(s: Sys) {
    forall w | 0 <= w < |s.workers| ::
      && (Handling(s.workers[w].pc) ==> s.workers[w].raw.Deliverable())
      && (s.workers[w].pc == Burying ==> !s.workers[w].raw.Deliverable())
  }

  ghost predicate PendsSorted(s: Sys) {
    forall c, e | 0 <= c < |s.pends| && e in s.pends[c] :: e.Deliverable()
  }

  /** Only what can be delivered is acknowledged; what is dead cannot be, or has used up its attempts. */
  ghost predicate ListsSorted(q: Queues, maxAttempts: nat) {
    && (forall e :: e in q.acked ==> e.Deliverable())
    && (forall e :: e in q.dead ==> !e.Deliverable() || e.attempts >= maxAttempts)
  }

  ghost predicate Sorted(s: Sys) {
    WorkersSorted(s) && PendsSorted(s) && ListsSorted(s.q, s.cfg.maxAttempts)
  }

  lemma WorkerStepSorts(s: Sys, w: nat, step: WorkerStep)
    requires WorkerEnabled(s, w, step) && Sorted(s)
    ensures var me := WorkerAfter(s, w, step);
      (Handling(me.pc) ==> me.raw.Deliverable()) && (me.pc == Burying ==> !me.raw.Deliverable())
  {
  }

  lemma WorkerOpSorts(s: Sys, w: nat, step: WorkerStep)
    requires WorkerEnabled(s, w, step) && Sorted(s) && Legal(s.q, WorkerOp(s, w, step))
    ensures ListsSorted(Apply(s.q, WorkerOp(s, w, step)), s.cfg.maxAttempts)
  {
  }

  lemma WorkerSorts(s: Sys, w: nat, step: WorkerStep)
    requires WorkerEnabled(s, w, step) && Sorted(s)
    ensures Sorted(WorkerNext(s, w, step))
  {
    StepIsOp(s, OfWorker(w, step));
    WorkerStepSorts(s, w, step);
    WorkerOpSorts(s, w, step);
  }

  lemma ConsumerSorts(s: Sys, c: nat, step: ConsumerStep)
    requires ConsumerEnabled(s, c, step) && Sorted(s)
    ensures Sorted(ConsumerNext(s, c, step))
  {
    StepIsOp(s, OfConsumer(c, step));
  }

  lemma StepSorts(s: Sys, a: Action)
    requires Enabled(s, a) && Sorted(s)
    ensures Sorted(Next(s, a))
  {
    match a
    case OfWorker(w, step) => WorkerSorts(s, w, step);
    case OfConsumer(c, step) => ConsumerSorts(s, c, step);
    case _ =>
  }

  lemma {:induction false} SortedAlways(s: Sys, acts: seq<Action>)
    requires Execution(s, acts) && Sorted(s)
    ensures Sorted(Exec(s, acts)) && Exec(s, acts).cfg == s.cfg
    decreases |acts|
  {
    if acts != [] {
      StepSorts(s, acts[0]);
      StepIsOp(s, acts[0]);
      SortedAlways(Next(s, acts[0]), acts[1..]);
    }
  }

  /**
   * In every execution: a delivery in the dead-letter list could not be decoded or delivered, or has failed as often
   * as it may; and one that cannot be decoded or delivered is never locked, processed, retried, given back or
   * acknowledged.
   */
  lemma DeadMeansGivenUp(cfg: Config, acts: seq<Action>)
    requires Execution(Init(cfg), acts)
    ensures var s := Exec(Init(cfg), acts);
      && (forall e :: e in s.q.dead ==> !e.Deliverable() || e.attempts >= cfg.maxAttempts)
      && (forall e :: e in s.q.acked ==> e.Deliverable())
      && (forall w | 0 <= w < |s.workers| && Handling(s.workers[w].pc) :: s.workers[w].raw.Deliverable())
  {
    SortedAlways(Init(cfg), acts);
  }

  /** A worker that meets such a delivery moves it to the dead-letter list, uncounted, and takes the next one. */
  lemma UndeliverableBuried(s: Sys, w: nat)
    requires WorkerEnabled(s, w, StampStep(NoFault)) && !s.workers[w].raw.Deliverable()
    requires s.workers[w].raw in s.q.procs[s.workers[w].c]
    ensures var s1 := WorkerNext(s, w, StampStep(NoFault));
      && WorkerEnabled(s1, w, BuryStep(NoFault))
      && var s2 := WorkerNext(s1, w, BuryStep(NoFault));
         var raw := s.workers[w].raw;
         && |s2.q.dead| == |s.q.dead| + 1 && s2.q.dead[1..] == s.q.dead
         && s2.q.dead[0].(startedAt := raw.startedAt) == raw
         && s2.q.main == s.q.main && s2.q.fails == s.q.fails && s2.workers[w].pc == Idle
  {
    var me := s.workers[w];
    LsetMembers(s.q.procs[me.c], me.raw, me.raw.(startedAt := s.now));
    var s1 := WorkerNext(s, w, StampStep(NoFault));
    assert s1.workers[w].raw in s1.q.procs[me.c];
  }
}
