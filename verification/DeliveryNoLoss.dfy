/**
 * At-least-once processing, end to end: an accepted message either has been
 * processed, or one of its deliveries is still held in main, a processing list
 * or the dead-letter list.
 */
module DeliveryNoLoss {
  import opened Wrappers
  import opened QueueState
  import opened Delivery
  import opened DeliveryRecovery
  import opened DeliveryHeld

  // ---------------------------------------------------------------------
  // Dedup processing keys and the deliveries whose runs set them
  // ---------------------------------------------------------------------

  /** Before acquiring. */
  predicate Early(pc: Pc) {
    pc in {Claiming, Locking, Burying, Yielding, Acquiring}
  }

  /** After the finally block, unless cancelled. */
  predicate Late(me: Worker) {
    (me.pc == Unlocking && me.out != Cancelled) || me.pc == Acking || me.pc == Retrying
  }

  /** `acquire` refused: the envelope will be acknowledged without a run of its own. */
  predicate Skipping(me: Worker) {
    me.skip && ((me.pc == Unlocking && me.out == Returned) || me.pc == Acking)
  }

  /** The run was marked done or its send was refused. */
  predicate Settled(me: Worker) {
    || me.pc == Finishing
    || (me.pc == Releasing && me.out == Returned)
    || (!me.skip && ((me.pc == Unlocking && me.out == Returned) || me.pc == Acking))
  }

  /** The message's key belongs to no run of `id`, unless the message has been processed. */
  predicate KeyFree(s: Sys, id: nat, m: string) {
    m in s.keys && s.keys[m].owner == id ==> m in s.h.processed
  }

  /** `id` is about to be acknowledged without anybody looking again. */
  ghost predicate Doomed(s: Sys, id: nat) {
    || (exists w: nat :: LiveBusy(s, w) && Skipping(s.workers[w]) && s.workers[w].raw.id == id)
    || (exists c: nat, e :: Owed(s, c, e) && e.id == id)
  }

  /** The message's key belongs to an accepted delivery of it, which recovery would release. */
  predicate KeyOwner(s: Sys, m: string) {
    m in s.keys ==>
      var o := s.keys[m].owner;
      o < |s.q.log| && DedupKey(s.q.log[o].inbound) == m && NeedsRelease(s.q.log[o])
  }

  /** The owner of the unprocessed message's key is held in a processing list. */
  ghost predicate KeyHeld(s: Sys, m: string) {
    m in s.keys && m !in s.h.processed ==>
      ProcCount(s.q.procs, s.keys[m].owner) > 0 && !Doomed(s, s.keys[m].owner)
  }

  ghost predicate FreeRuns(s: Sys, m: string) {
    forall w: nat :: LiveBusy(s, w) && (Early(s.workers[w].pc) || Late(s.workers[w])) ==>
      KeyFree(s, s.workers[w].raw.id, m)
  }

  ghost predicate SettledRuns(s: Sys, m: string) {
    && (forall w: nat :: LiveBusy(s, w) && Settled(s.workers[w]) && DedupKey(s.workers[w].raw.inbound) == m ==>
          m in s.h.processed)
    && (m in s.dones ==> m in s.h.processed)
  }

  /** Items a recovery has passed over own no key any more while they stay listed. */
  ghost predicate ItemsCleared(s: Sys, mt: Maint, m: string)
    requires mt.MClear? ==> mt.owner < |s.q.procs|
  {
    mt.MClear? && mt.ready ==>
      && mt.next <= |mt.items|
      && forall j :: 0 <= j < mt.next && Count(s.q.procs[mt.owner], mt.items[j].id) > 0 ==>
           KeyFree(s, mt.items[j].id, m)
  }

  ghost predicate AllItemsCleared(s: Sys, m: string)
    requires Shape(s)
  {
    forall c :: 0 <= c < |s.maints| ==> ItemsCleared(s, s.maints[c], m)
  }

  /** The message has been processed, or a delivery of it is still held. */
  ghost predicate Safe(s: Sys, m: string) {
    || m in s.h.processed
    || exists id: nat :: id < |s.q.log| && DedupKey(s.q.log[id].inbound) == m
         && Count(s.q.acked, id) == 0 && !Doomed(s, id)
  }

  ghost predicate NoLoss(s: Sys, m: string) {
    forall id: nat :: id < |s.q.log| && DedupKey(s.q.log[id].inbound) == m ==> Safe(s, m)
  }

  /** A run of the message that failed or was refused its send releases its processing key in effect. */
  predicate ReleasesHeard(s: Sys, a: Action, m: string) {
    a.OfWorker? && a.wstep.ReleaseStep? && a.w < |s.workers|
    && s.workers[a.w].out != Cancelled && DedupKey(s.workers[a.w].raw.inbound) == m ==>
      a.wstep.f != Dropped
  }

  function HeardFor(m: string): (Sys, Action) -> bool {
    (s, a) => ReleasesHeard(s, a, m)
  }

  /** The key under which messages without an id are deduplicated together. */
  const NAMELESS := "unknown"

  ghost predicate Keyed(s: Sys, m: string)
    requires Shape(s)
  {
    && m != NAMELESS
    && KeyOwner(s, m) && KeyHeld(s, m) && FreeRuns(s, m) && SettledRuns(s, m) && AllItemsCleared(s, m)
  }

  lemma SkippingWorker(s: Sys, w: nat, step: WorkerStep)
    requires WorkerEnabled(s, w, step) && Skipping(WorkerAfter(s, w, step))
    ensures LiveBusy(s, w) && WorkerAfter(s, w, step).raw == s.workers[w].raw
    ensures Skipping(s.workers[w]) || step.AcquireStep?
  {
  }

  lemma OwingStep(s: Sys, a: Action, c: nat, e: Envelope)
    requires Enabled(s, a) && Shape(s) && Owed(Next(s, a), c, e) && !Owed(s, c, e)
    ensures a.OfWorker? && a.wstep.AckStep? && LiveBusy(s, a.w) && s.workers[a.w].raw == e
  {
  }

  /** Only a refused acquire or an acknowledgement dooms an id. */
  lemma DoomedStep(s: Sys, a: Action, id: nat)
    requires Enabled(s, a) && Shape(s) && Shape(Next(s, a)) && Doomed(Next(s, a), id)
    ensures Doomed(s, id) ||
      (a.OfWorker? && (a.wstep.AcquireStep? || a.wstep.AckStep?) && LiveBusy(s, a.w) && s.workers[a.w].raw.id == id)
  {
    var s' := Next(s, a);
    if w: nat :| LiveBusy(s', w) && Skipping(s'.workers[w]) && s'.workers[w].raw.id == id {
      if a.OfWorker? && a.w == w {
        SkippingWorker(s, w, a.wstep);
      } else {
        assert LiveBusy(s, w) && s.workers[w] == s'.workers[w];
      }
    } else {
      var c: nat, e :| Owed(s', c, e) && e.id == id;
      if !Owed(s, c, e) {
        OwingStep(s, a, c, e);
      }
    }
  }

  lemma ProcessedGrows(s: Sys, a: Action)
    requires Enabled(s, a)
    ensures s.h.processed <= Next(s, a).h.processed
  {
  }

  /** A new key is the acquiring worker's own. */
  lemma NewKey(s: Sys, a: Action, m: string)
    requires Enabled(s, a) && m in Next(s, a).keys && !(m in s.keys && s.keys[m] == Next(s, a).keys[m])
    ensures a.OfWorker? && a.wstep.AcquireStep?
    ensures m == DedupKey(s.workers[a.w].raw.inbound) && Next(s, a).keys[m].owner == s.workers[a.w].raw.id
  {
  }

  lemma KeyOwnerStep(s: Sys, a: Action, m: string)
    requires Enabled(s, a) && Held(s) && KeyOwner(s, m) && m != NAMELESS
    ensures KeyOwner(Next(s, a), m)
  {
    var s' := Next(s, a);
    StepIsOp(s, a);
    LogGrows(s.q, OpOf(s, a));
    if m in s'.keys && !(m in s.keys && s.keys[m] == s'.keys[m]) {
      NewKey(s, a, m);
      assert WorkerKnown(s.q.log, s.workers[a.w]);
    }
  }

  /** An id whose runs do not own the key stays so until one of them acquires. */
  lemma KeyFreeStep(s: Sys, a: Action, id: nat, m: string)
    requires Enabled(s, a) && KeyFree(s, id, m)
    requires a.OfWorker? && a.wstep.AcquireStep? ==> s.workers[a.w].raw.id != id
    ensures KeyFree(Next(s, a), id, m)
  {
    var s' := Next(s, a);
    ProcessedGrows(s, a);
    if m in s'.keys && !(m in s.keys && s.keys[m] == s'.keys[m]) {
      NewKey(s, a, m);
    }
  }

  lemma SettledStep(s: Sys, a: Action, m: string)
    requires Enabled(s, a) && Shape(s) && SettledRuns(s, m)
    ensures SettledRuns(Next(s, a), m)
  {
    var s' := Next(s, a);
    ProcessedGrows(s, a);
    forall w: nat | LiveBusy(s', w) && Settled(s'.workers[w]) && DedupKey(s'.workers[w].raw.inbound) == m
      ensures m in s'.h.processed
    {
      if a.OfWorker? && a.w == w {
        SettledWorker(s, w, a.wstep, m);
      } else {
        assert LiveBusy(s, w);
      }
    }
  }

  lemma SettledWorker(s: Sys, w: nat, step: WorkerStep, m: string)
    requires WorkerEnabled(s, w, step) && SettledRuns(s, m) && Settled(WorkerAfter(s, w, step))
    requires DedupKey(WorkerAfter(s, w, step).raw.inbound) == m
    ensures m in HistoryAfter(s, w, step).processed
  {
    if !step.MarkStep? && !step.SendStep? {
      assert LiveBusy(s, w) && Settled(s.workers[w]);
    }
  }

  /** An id leaves the processing lists only through an operation that names it. */
  lemma ProcCountStep(q: Queues, op: Op, id: nat)
    requires Legal(q, op)
    requires op.GiveBack? || op.Retry? || op.Bury? || op.Ack? ==> op.raw.id != id || op.raw !in q.procs[op.c]
    requires op.Requeue? ==> forall e :: e in op.items && e in q.procs[op.c] ==> e.id != id
    ensures ProcCount(Apply(q, op).procs, id) >= ProcCount(q.procs, id)
  {
    match op
    case Skip =>
    case Join => ProcCountJoin(q.procs, id);
    case Push(_, _, _, _) =>
    case Pop(c) =>
      CountCons(q.main[|q.main| - 1], q.procs[c], id);
      ProcCountUpdate(q.procs, c, [q.main[|q.main| - 1]] + q.procs[c], id);
    case Stamp(c, raw, startedAt) =>
      LsetCount(q.procs[c], raw, raw.(startedAt := startedAt), id);
      ProcCountUpdate(q.procs, c, Lset(q.procs[c], raw, raw.(startedAt := startedAt)), id);
    case GiveBack(c, raw) => if raw in q.procs[c] { TakeCount(q, c, raw, id); }
    case Retry(c, raw, _) => if raw in q.procs[c] { TakeCount(q, c, raw, id); }
    case Bury(c, raw) => if raw in q.procs[c] { TakeCount(q, c, raw, id); }
    case Ack(c, raw) => if raw in q.procs[c] { TakeCount(q, c, raw, id); }
    case Requeue(c, items) =>
      RequeueKeeps(q.procs[c], q.main, items, id);
      ProcCountUpdate(q.procs, c, RequeueLists(q.procs[c], q.main, items).0, id);
  }

  lemma {:induction false} RequeueKeeps(src: seq<Envelope>, dst: seq<Envelope>, items: seq<Envelope>, id: nat)
    requires forall e :: e in items && e in src ==> e.id != id
    ensures Count(RequeueLists(src, dst, items).0, id) == Count(src, id)
    decreases items
  {
    if items != [] {
      if items[0] in src {
        LremCount(src, items[0], id);
        LremMembers(src, items[0]);
        RequeueKeeps(Lrem(src, items[0]), [items[0]] + dst, items[1..], id);
      } else {
        RequeueKeeps(src, dst, items[1..], id);
      }
    }
  }

  /** A recovery that moves its snapshot has cleared every item of it, so the key's owner is not among them. */
  lemma OwnerNotMoved(s: Sys, c: nat, step: ConsumerStep, m: string)
    requires ConsumerEnabled(s, c, step) && Held(s) && Keyed(s, m) && ConsumerOp(s, c, step).Requeue?
    requires m in s.keys && m !in s.h.processed
    ensures var op := ConsumerOp(s, c, step);
      forall e :: e in op.items && e in s.q.procs[op.c] ==> e.id != s.keys[m].owner
  {
    var op, mt := ConsumerOp(s, c, step), s.maints[c];
    assert ItemsCleared(s, mt, m);
    forall e | e in op.items && e in s.q.procs[op.c] ensures e.id != s.keys[m].owner {
      var j :| 0 <= j < |mt.items| && mt.items[j] == e;
      CountMember(s.q.procs[op.c], e);
      assert KeyFree(s, mt.items[j].id, m);
    }
  }

  /** A worker gives up an envelope only before its acquire or after its finally block, when it owns no key. */
  lemma OwnerNotGivenUp(s: Sys, w: nat, step: WorkerStep, m: string)
    requires WorkerEnabled(s, w, step) && Held(s) && Keyed(s, m)
    requires var op := WorkerOp(s, w, step); op.GiveBack? || op.Retry? || op.Bury? || op.Ack?
    requires m in s.keys && m !in s.h.processed
    ensures WorkerOp(s, w, step).raw.id != s.keys[m].owner
  {
    assert LiveBusy(s, w) && (Early(s.workers[w].pc) || Late(s.workers[w]));
    assert KeyFree(s, s.workers[w].raw.id, m);
  }

  /** No step takes the owner of an unprocessed key out of the processing lists. */
  lemma OwnerKept(s: Sys, a: Action, m: string)
    requires Enabled(s, a) && Held(s) && Keyed(s, m)
    requires m in s.keys && m !in s.h.processed
    ensures ProcCount(Next(s, a).q.procs, s.keys[m].owner) > 0
  {
    StepIsOp(s, a);
    var op := OpOf(s, a);
    if a.OfConsumer? {
      if op.Requeue? {
        OwnerNotMoved(s, a.c, a.cstep, m);
      } else if op.Ack? {
        assert Owed(s, a.c, op.raw) && !Doomed(s, s.keys[m].owner);
      }
    } else if op.GiveBack? || op.Retry? || op.Bury? || op.Ack? {
      OwnerNotGivenUp(s, a.w, a.wstep, m);
    }
    ProcCountStep(s.q, op, s.keys[m].owner);
  }

  lemma KeyHeldStep(s: Sys, a: Action, m: string)
    requires Enabled(s, a) && Held(s) && Keyed(s, m) && Shape(Next(s, a))
    ensures KeyHeld(Next(s, a), m)
  {
    var s' := Next(s, a);
    ProcessedGrows(s, a);
    if m in s'.keys && m !in s'.h.processed {
      if m in s.keys && s.keys[m] == s'.keys[m] {
        OwnerKept(s, a, m);
        OwnerUndoomed(s, a, m);
      } else {
        NewOwner(s, a, m);
      }
    }
  }

  lemma OwnerUndoomed(s: Sys, a: Action, m: string)
    requires Enabled(s, a) && Held(s) && Keyed(s, m) && Shape(Next(s, a))
    requires m in s.keys && m !in s.h.processed && m in Next(s, a).keys && s.keys[m] == Next(s, a).keys[m]
    ensures !Doomed(Next(s, a), s.keys[m].owner)
  {
    var o := s.keys[m].owner;
    assert !Doomed(s, o);
    if a.OfWorker? && LiveBusy(s, a.w) && (Early(s.workers[a.w].pc) || Late(s.workers[a.w])) {
      assert KeyFree(s, s.workers[a.w].raw.id, m);
    }
    if Doomed(Next(s, a), o) {
      DoomedStep(s, a, o);
    }
  }

  lemma NewOwner(s: Sys, a: Action, m: string)
    requires Enabled(s, a) && Held(s) && Keyed(s, m) && Shape(Next(s, a))
    requires m in Next(s, a).keys && !(m in s.keys && s.keys[m] == Next(s, a).keys[m])
    ensures ProcCount(Next(s, a).q.procs, Next(s, a).keys[m].owner) > 0
    ensures !Doomed(Next(s, a), Next(s, a).keys[m].owner)
  {
    var s' := Next(s, a);
    NewKey(s, a, m);
    var w := a.w;
    var id := s.workers[w].raw.id;
    assert LiveBusy(s, w);
    ProcCountUpdate(s.q.procs, s.workers[w].c, [], id);
    StepIsOp(s, a);
    if v: nat :| LiveBusy(s', v) && Skipping(s'.workers[v]) && s'.workers[v].raw.id == id {
      assert v != w && LiveBusy(s, v);
      assert false;
    }
    if c: nat, e :| Owed(s', c, e) && e.id == id {
      assert Owed(s, c, e);
      assert false;
    }
  }

  lemma FreeRunsStep(s: Sys, a: Action, m: string)
    requires Enabled(s, a) && Held(s) && Keyed(s, m) && ReleasesHeard(s, a, m)
    requires Shape(Next(s, a))
    ensures FreeRuns(Next(s, a), m)
  {
    var s' := Next(s, a);
    forall v: nat | LiveBusy(s', v) && (Early(s'.workers[v].pc) || Late(s'.workers[v]))
      ensures KeyFree(s', s'.workers[v].raw.id, m)
    {
      if a.OfWorker? && a.w == v {
        FreeWorker(s, v, a.wstep, m);
      } else {
        assert LiveBusy(s, v) && KeyFree(s, s.workers[v].raw.id, m);
        if a.OfWorker? && a.wstep.AcquireStep? {
          assert LiveBusy(s, a.w);
        }
        KeyFreeStep(s, a, s.workers[v].raw.id, m);
      }
    }
  }

  lemma FreeWorker(s: Sys, w: nat, step: WorkerStep, m: string)
    requires WorkerEnabled(s, w, step) && Held(s) && Keyed(s, m) && ReleasesHeard(s, OfWorker(w, step), m)
    requires var me := WorkerAfter(s, w, step); Early(me.pc) || Late(me)
    ensures KeyFree(WorkerNext(s, w, step), WorkerAfter(s, w, step).raw.id, m)
  {
    StepsThere(s, w, step);
    if step.PopStep? {
      PoppedFree(s, s.workers[w].c, m);
      KeyFreeStep(s, OfWorker(w, step), WorkerAfter(s, w, step).raw.id, m);
    } else if step.ReleaseStep? || step.FinishStep? {
      FinallyFree(s, w, step, m);
    } else {
      FreeBefore(s, w, step);
      assert KeyFree(s, s.workers[w].raw.id, m);
      if !step.AcquireStep? {
        KeyFreeStep(s, OfWorker(w, step), s.workers[w].raw.id, m);
      }
    }
  }

  /** Otherwise the worker was before its acquire or after its finally block already. */
  lemma FreeBefore(s: Sys, w: nat, step: WorkerStep)
    requires WorkerEnabled(s, w, step) && !step.PopStep? && !step.ReleaseStep? && !step.FinishStep?
    requires var me := WorkerAfter(s, w, step); Early(me.pc) || Late(me)
    ensures LiveBusy(s, w) && (Early(s.workers[w].pc) || Late(s.workers[w]))
    ensures step.AcquireStep? ==> KeysAfter(s, w, step) == s.keys
  {
  }

  lemma FinallyFree(s: Sys, w: nat, step: WorkerStep, m: string)
    requires WorkerEnabled(s, w, step) && Held(s) && Keyed(s, m) && ReleasesHeard(s, OfWorker(w, step), m)
    requires step.ReleaseStep? || step.FinishStep?
    requires Late(WorkerAfter(s, w, step))
    ensures KeyFree(WorkerNext(s, w, step), s.workers[w].raw.id, m)
  {
    assert LiveBusy(s, w);
    OwnKey(s, w, m);
    if step.FinishStep? {
      KeyFreeStep(s, OfWorker(w, step), s.workers[w].raw.id, m);
    } else {
      ReleasedFree(s, w, step, m);
    }
  }

  lemma ReleasedFree(s: Sys, w: nat, step: WorkerStep, m: string)
    requires WorkerEnabled(s, w, step) && step.ReleaseStep?
    requires DedupKey(s.workers[w].raw.inbound) == m ==> step.f != Dropped
    requires m in s.keys && s.keys[m].owner == s.workers[w].raw.id ==> m == DedupKey(s.workers[w].raw.inbound)
    ensures KeyFree(WorkerNext(s, w, step), s.workers[w].raw.id, m)
  {
    assert m in KeysAfter(s, w, step) ==> m in s.keys && KeysAfter(s, w, step)[m] == s.keys[m];
  }

  /** The only key a worker's envelope can own is the one of its message. */
  lemma OwnKey(s: Sys, w: nat, m: string)
    requires Held(s) && Keyed(s, m) && LiveBusy(s, w)
    ensures m in s.keys && s.keys[m].owner == s.workers[w].raw.id ==> m == DedupKey(s.workers[w].raw.inbound)
    ensures s.workers[w].pc == Finishing ==> KeyFree(s, s.workers[w].raw.id, m)
  {
    assert WorkerKnown(s.q.log, s.workers[w]);
  }

  lemma PoppedFree(s: Sys, c: nat, m: string)
    requires Held(s) && Keyed(s, m) && s.q.main != [] && c < |s.q.procs|
    ensures KeyFree(s, s.q.main[|s.q.main| - 1].id, m)
  {
    var id := s.q.main[|s.q.main| - 1].id;
    PopApart(s.q, c);
    assert Places(s.q, id) == if id < |s.q.log| then 1 else 0;
  }

  lemma ItemsClearedStep(s: Sys, a: Action, m: string)
    requires Enabled(s, a) && Held(s) && Keyed(s, m) && Shape(Next(s, a))
    ensures AllItemsCleared(Next(s, a), m)
  {
    var s' := Next(s, a);
    StepIsOp(s, a);
    forall c | 0 <= c < |s'.maints| ensures ItemsCleared(s', s'.maints[c], m) {
      var mt := s'.maints[c];
      if a.OfConsumer? && a.c == c && a.cstep.Clear? {
        ClearStepClears(s, c, a.cstep, m);
      } else if mt.MClear? && c < |s.maints| && s.maints[c] == mt {
        assert ItemsCleared(s, mt, m);
        ItemsStay(s, a, mt, c, m);
      }
    }
  }

  /** Items passed over stay cleared whatever happens elsewhere. */
  lemma ItemsStay(s: Sys, a: Action, mt: Maint, c: nat, m: string)
    requires Enabled(s, a) && Held(s) && Keyed(s, m) && Shape(Next(s, a))
    requires c < |s.maints| && s.maints[c] == mt && mt.MClear? && ItemsCleared(s, mt, m)
    ensures ItemsCleared(Next(s, a), mt, m)
  {
    var s' := Next(s, a);
    if mt.ready {
      forall j | 0 <= j < mt.next && Count(s'.q.procs[mt.owner], mt.items[j].id) > 0
        ensures KeyFree(s', mt.items[j].id, m)
      {
        ItemStays(s, a, mt.owner, mt.items[j].id, m);
      }
    }
  }

  lemma ItemStays(s: Sys, a: Action, owner: nat, id: nat, m: string)
    requires Enabled(s, a) && Held(s) && Keyed(s, m)
    requires owner < |s.phases| && !Running(s.phases[owner])
    requires Count(s.q.procs[owner], id) > 0 ==> KeyFree(s, id, m)
    requires owner < |Next(s, a).q.procs| && Count(Next(s, a).q.procs[owner], id) > 0
    ensures KeyFree(Next(s, a), id, m)
  {
    StepIsOp(s, a);
    ListCountShrinks(s.q, OpOf(s, a), owner, id);
    if a.OfWorker? && a.wstep.AcquireStep? {
      assert LiveBusy(s, a.w);
      Apart(s.q, owner, id);
    }
    KeyFreeStep(s, a, id, m);
  }

  /** A list nobody pops into only shrinks. */
  lemma ListCountShrinks(q: Queues, op: Op, d: nat, id: nat)
    requires Legal(q, op) && d < |q.procs| && !(op.Pop? && op.c == d)
    ensures d < |Apply(q, op).procs| && Count(Apply(q, op).procs[d], id) <= Count(q.procs[d], id)
  {
    match op
    case Stamp(c, raw, startedAt) => LsetCount(q.procs[c], raw, raw.(startedAt := startedAt), id);
    case GiveBack(c, raw) => if raw in q.procs[c] { LremCount(q.procs[c], raw, id); }
    case Retry(c, raw, _) => if raw in q.procs[c] { LremCount(q.procs[c], raw, id); }
    case Bury(c, raw) => if raw in q.procs[c] { LremCount(q.procs[c], raw, id); }
    case Ack(c, raw) => if raw in q.procs[c] { LremCount(q.procs[c], raw, id); }
    case Requeue(c, items) => RequeueShrinks(q.procs[c], q.main, items, id);
    case _ =>
  }

  lemma {:induction false} RequeueShrinks(src: seq<Envelope>, dst: seq<Envelope>, items: seq<Envelope>, id: nat)
    ensures Count(RequeueLists(src, dst, items).0, id) <= Count(src, id)
    decreases items
  {
    if items != [] {
      if items[0] in src {
        LremCount(src, items[0], id);
        RequeueShrinks(Lrem(src, items[0]), [items[0]] + dst, items[1..], id);
      } else {
        RequeueShrinks(src, dst, items[1..], id);
      }
    }
  }

  /** One confirmed release clears one more item. */
  lemma ClearStepClears(s: Sys, c: nat, step: ConsumerStep, m: string)
    requires ConsumerEnabled(s, c, step) && step.Clear? && Held(s) && Keyed(s, m)
    ensures c < |ConsumerNext(s, c, step).maints|
    ensures ConsumerNext(s, c, step).maints[c].owner < |ConsumerNext(s, c, step).q.procs|
    ensures ItemsCleared(ConsumerNext(s, c, step), ConsumerNext(s, c, step).maints[c], m)
  {
    var s', a := ConsumerNext(s, c, step), OfConsumer(c, step);
    var mt, mt' := s.maints[c], s'.maints[c];
    assert ItemsCleared(s, mt, m);
    if mt'.ready {
      forall j | 0 <= j < mt'.next && Count(s'.q.procs[mt.owner], mt.items[j].id) > 0
        ensures KeyFree(s', mt.items[j].id, m)
      {
        if j < mt.next {
          KeyFreeStep(s, a, mt.items[j].id, m);
        } else {
          assert mt.items[j] in mt.items && Known(s.q.log, mt.items[j]);
        }
      }
    }
  }

  // ---------------------------------------------------------------------
  // No message is lost
  // ---------------------------------------------------------------------

  /** A worker acknowledges what it skipped or what has been processed. */
  lemma WorkerAcks(s: Sys, w: nat, step: WorkerStep, id: nat, m: string)
    requires WorkerEnabled(s, w, step) && step.AckStep? && Held(s) && SettledRuns(s, m)
    requires s.workers[w].raw.id == id && !Doomed(s, id) && id < |s.q.log| && DedupKey(s.q.log[id].inbound) == m
    ensures m in s.h.processed
  {
    assert LiveBusy(s, w) && WorkerKnown(s.q.log, s.workers[w]);
    assert Skipping(s.workers[w]) || Settled(s.workers[w]);
  }

  /** Only an acknowledgement takes an id out of reach. */
  lemma AckedStep(s: Sys, a: Action, id: nat, m: string)
    requires Enabled(s, a) && Held(s) && SettledRuns(s, m)
    requires Count(s.q.acked, id) == 0 && !Doomed(s, id) && id < |s.q.log|
    requires DedupKey(s.q.log[id].inbound) == m && m !in s.h.processed
    ensures Count(Next(s, a).q.acked, id) == 0
  {
    StepIsOp(s, a);
    var op := OpOf(s, a);
    AckedGrows(s.q, op, id);
    if op.Ack? && op.raw.id == id {
      if a.OfWorker? {
        WorkerAcks(s, a.w, a.wstep, id, m);
      } else {
        assert Owed(s, a.c, op.raw);
      }
    }
  }

  /** A refused acquire leaves the message's key owner to process it. */
  lemma RefusedSafe(s: Sys, w: nat, step: WorkerStep, m: string)
    requires WorkerEnabled(s, w, step) && step.AcquireStep? && step.f == NoFault
    requires Held(s) && Keyed(s, m) && Shape(WorkerNext(s, w, step))
    requires DedupKey(s.workers[w].raw.inbound) == m && Taken(s, m)
    ensures Safe(WorkerNext(s, w, step), m)
  {
    var s' := WorkerNext(s, w, step);
    assert LiveBusy(s, w) && KeyFree(s, s.workers[w].raw.id, m);
    if m !in s.h.processed {
      assert m !in s.dones && m in s.keys;
      var o := s.keys[m].owner;
      assert ProcCount(s.q.procs, o) > 0 && !Doomed(s, o) && o != s.workers[w].raw.id;
      assert Places(s.q, o) == if o < |s.q.log| then 1 else 0;
      if Doomed(s', o) {
        DoomedStep(s, OfWorker(w, step), o);
      }
      assert s'.q == s.q;
    }
  }

  lemma SafeStep(s: Sys, a: Action, m: string)
    requires Enabled(s, a) && Held(s) && Keyed(s, m) && Shape(Next(s, a)) && Safe(s, m)
    ensures Safe(Next(s, a), m)
  {
    var s' := Next(s, a);
    ProcessedGrows(s, a);
    StepIsOp(s, a);
    LogGrows(s.q, OpOf(s, a));
    if m !in s'.h.processed {
      var id: nat :| id < |s.q.log| && DedupKey(s.q.log[id].inbound) == m
        && Count(s.q.acked, id) == 0 && !Doomed(s, id);
      AckedStep(s, a, id, m);
      if Doomed(s', id) {
        DoomedStep(s, a, id);
        assert WorkerKnown(s.q.log, s.workers[a.w]);
        DoomedSafe(s, a, id, m);
      }
    }
  }

  lemma DoomedSafe(s: Sys, a: Action, id: nat, m: string)
    requires Enabled(s, a) && Held(s) && Keyed(s, m) && Shape(Next(s, a))
    requires a.OfWorker? && (a.wstep.AcquireStep? || a.wstep.AckStep?) && LiveBusy(s, a.w)
    requires s.workers[a.w].raw.id == id && id < |s.q.log| && Known(s.q.log, s.workers[a.w].raw)
    requires DedupKey(s.q.log[id].inbound) == m
    requires !Doomed(s, id) && Doomed(Next(s, a), id)
    ensures Safe(Next(s, a), m)
  {
    if a.wstep.AckStep? {
      ProcessedGrows(s, a);
      WorkerAcks(s, a.w, a.wstep, id, m);
    } else {
      RefusedIfDoomed(s, a, id);
      RefusedSafe(s, a.w, a.wstep, m);
    }
  }

  lemma RefusedIfDoomed(s: Sys, a: Action, id: nat)
    requires Enabled(s, a) && Held(s) && Shape(Next(s, a))
    requires a.OfWorker? && a.wstep.AcquireStep? && LiveBusy(s, a.w)
    requires s.workers[a.w].raw.id == id && !Doomed(s, id) && Doomed(Next(s, a), id)
    ensures a.wstep.f == NoFault && Taken(s, DedupKey(s.workers[a.w].raw.inbound))
  {
    var s' := Next(s, a);
    if v: nat :| LiveBusy(s', v) && Skipping(s'.workers[v]) && s'.workers[v].raw.id == id {
      if v != a.w {
        assert LiveBusy(s, v);
      }
    } else {
      var c: nat, e :| Owed(s', c, e) && e.id == id;
      assert Owed(s, c, e);
    }
  }

  lemma NoLossStep(s: Sys, a: Action, m: string)
    requires Enabled(s, a) && Held(s) && Keyed(s, m) && Shape(Next(s, a)) && NoLoss(s, m)
    ensures NoLoss(Next(s, a), m)
  {
    var s' := Next(s, a);
    StepIsOp(s, a);
    LogGrows(s.q, OpOf(s, a));
    forall id: nat | id < |s'.q.log| && DedupKey(s'.q.log[id].inbound) == m
      ensures Safe(s', m)
    {
      if id < |s.q.log| {
        assert Safe(s, m);
        SafeStep(s, a, m);
      } else {
        NewcomerSafe(s, a, id, m);
      }
    }
  }

  lemma DoomedKnown(s: Sys, id: nat)
    requires Held(s) && Doomed(s, id)
    ensures id < |s.q.log|
  {
    if w: nat :| LiveBusy(s, w) && Skipping(s.workers[w]) && s.workers[w].raw.id == id {
      assert WorkerKnown(s.q.log, s.workers[w]);
    } else {
      var c: nat, e :| Owed(s, c, e) && e.id == id;
      assert e in s.pends[c] && Known(s.q.log, e);
    }
  }

  /** An id not accepted yet is not about to be acknowledged. */
  lemma NewcomerUndoomed(s: Sys, a: Action, id: nat)
    requires Enabled(s, a) && Held(s) && Shape(Next(s, a)) && |s.q.log| <= id
    ensures !Doomed(Next(s, a), id)
  {
    assert a.OfWorker? ==> WorkerKnown(s.q.log, s.workers[a.w]);
    if Doomed(Next(s, a), id) {
      DoomedStep(s, a, id);
      if Doomed(s, id) {
        DoomedKnown(s, id);
      }
    }
  }

  lemma NewcomerSafe(s: Sys, a: Action, id: nat, m: string)
    requires Enabled(s, a) && Held(s) && Shape(Next(s, a))
    requires |s.q.log| <= id < |Next(s, a).q.log| && DedupKey(Next(s, a).q.log[id].inbound) == m
    ensures Safe(Next(s, a), m)
  {
    assert Places(s.q, id) == 0;
    StepIsOp(s, a);
    AckedGrows(s.q, OpOf(s, a), id);
    assert OpOf(s, a).Push?;
    NewcomerUndoomed(s, a, id);
  }

  lemma KeyedStep(s: Sys, a: Action, m: string)
    requires Enabled(s, a) && Held(s) && Keyed(s, m) && ReleasesHeard(s, a, m) && Shape(Next(s, a))
    ensures Keyed(Next(s, a), m)
  {
    KeyOwnerStep(s, a, m);
    KeyHeldStep(s, a, m);
    FreeRunsStep(s, a, m);
    SettledStep(s, a, m);
    ItemsClearedStep(s, a, m);
  }

  lemma {:induction false} NoLossAlways(s: Sys, acts: seq<Action>, m: string)
    requires Execution(s, acts) && Along(s, acts, BeatsTimely, HeardFor(m))
    requires Held(s) && Keyed(s, m) && NoLoss(s, m)
    ensures Held(Exec(s, acts)) && Keyed(Exec(s, acts), m) && NoLoss(Exec(s, acts), m)
    decreases |acts|
  {
    if acts != [] {
      var a := acts[0];
      assert HeardFor(m)(s, a);
      HeldStep(s, a);
      KeyedStep(s, a, m);
      NoLossStep(s, a, m);
      NoLossAlways(Next(s, a), acts[1..], m);
    }
  }

  /**
   * At least once, message by message. If serving and stopping consumers keep their heartbeats, then a message with
   * an id whose own failed runs have their release heard is never lost, whatever happens to other messages: in every
   * reachable state it has been processed (some run of it was marked done or had its send refused), or one of its
   * deliveries is still in main, a processing list or the dead-letter list.
   */
  lemma AtLeastOnce(cfg: Config, acts: seq<Action>, id: nat)
    requires Execution(Init(cfg), acts) && id < |Exec(Init(cfg), acts).q.log|
    requires Exec(Init(cfg), acts).q.log[id].inbound.msgid !in {"", NAMELESS}
    requires Along(Init(cfg), acts, BeatsTimely, HeardFor(Exec(Init(cfg), acts).q.log[id].inbound.msgid))
    ensures var s := Exec(Init(cfg), acts); var m := s.q.log[id].inbound.msgid;
      || m in s.h.processed
      || exists e: nat :: e < |s.q.log| && s.q.log[e].inbound.msgid == m
           && Count(s.q.main, e) + ProcCount(s.q.procs, e) + Count(s.q.dead, e) == 1
  {
    var s := Exec(Init(cfg), acts);
    var m := s.q.log[id].inbound.msgid;
    DedupKeys(s.q.log[id].inbound, s.q.log[id].inbound);
    InitHolds(cfg, m);
    NoLossAlways(Init(cfg), acts, m);
    assert Safe(s, m);
    SafeIsThere(s, m);
    if m !in s.h.processed {
      var e: nat :| e < |s.q.log| && DedupKey(s.q.log[e].inbound) == m
        && Count(s.q.main, e) + ProcCount(s.q.procs, e) + Count(s.q.dead, e) == 1;
      DedupKeys(s.q.log[e].inbound, s.q.log[id].inbound);
    }
  }

  lemma InitHolds(cfg: Config, m: string)
    requires m != NAMELESS
    ensures Held(Init(cfg)) && Keyed(Init(cfg), m) && NoLoss(Init(cfg), m)
  {
  }

  lemma SafeIsThere(s: Sys, m: string)
    requires Held(s) && Safe(s, m)
    ensures m in s.h.processed
      || exists e: nat :: e < |s.q.log| && DedupKey(s.q.log[e].inbound) == m
           && Count(s.q.main, e) + ProcCount(s.q.procs, e) + Count(s.q.dead, e) == 1
  {
    if m !in s.h.processed {
      var e: nat :| e < |s.q.log| && DedupKey(s.q.log[e].inbound) == m
        && Count(s.q.acked, e) == 0 && !Doomed(s, e);
      assert Places(s.q, e) == 1;
    }
  }
}
