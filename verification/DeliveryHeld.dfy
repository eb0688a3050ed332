/** Which envelopes the lists and workers hold: each is an accepted one, and a live worker's is its alone. */
module DeliveryHeld {
  import opened Wrappers
  import opened QueueState
  import opened Delivery
  import opened DeliveryRecovery

  // ---------------------------------------------------------------------
  // Envelopes keep their message
  // ---------------------------------------------------------------------

  /** `e` is the accepted envelope with its id, up to attempts and claim time. */
  predicate Known(log: seq<Envelope>, e: Envelope) {
    e.id < |log| && e == log[e.id].(attempts := e.attempts, startedAt := e.startedAt)
  }

  ghost predicate ListsKnown(q: Queues) {
    && (forall e :: e in q.main ==> Known(q.log, e))
    && (forall c, e :: 0 <= c < |q.procs| && e in q.procs[c] ==> Known(q.log, e))
    && (forall i :: 0 <= i < |q.log| ==> Known(q.log, q.log[i]))
  }

  lemma ListsKnownStep(q: Queues, op: Op)
    requires Legal(q, op) && ListsKnown(q)
    ensures ListsKnown(Apply(q, op))
  {
    match op
    case Skip =>
    case Join =>
    case Push(_, _, _, _) =>
      assert forall e: Envelope :: Known(q.log, e) ==> Known(Apply(q, op).log, e);
    case Pop(c) =>
    case Stamp(c, raw, startedAt) =>
      LsetMembers(q.procs[c], raw, raw.(startedAt := startedAt));
      assert Known(q.log, raw) ==> Known(q.log, raw.(startedAt := startedAt));
    case GiveBack(c, raw) => LremMembers(q.procs[c], raw);
    case Retry(c, raw, _) =>
      LremMembers(q.procs[c], raw);
      assert Known(q.log, raw) ==> Known(q.log, raw.(attempts := raw.attempts + 1));
    case Bury(c, raw) => LremMembers(q.procs[c], raw);
    case Ack(c, raw) => LremMembers(q.procs[c], raw);
    case Requeue(c, items) => RequeueMembers(q.procs[c], q.main, items);
  }

  /** A worker that has taken an envelope and is not done with it. */
  predicate Busy(pc: Pc) {
    pc != Idle && pc != Halted
  }

  /** The awaits only a deliverable envelope reaches. */
  predicate Decoded(pc: Pc) {
    Busy(pc) && pc != Claiming && pc != Burying
  }

  predicate WorkerKnown(log: seq<Envelope>, me: Worker) {
    Busy(me.pc) ==> Known(log, me.raw) && (Decoded(me.pc) ==> me.raw.Deliverable())
  }

  ghost predicate HeldKnown(s: Sys) {
    && (forall w :: 0 <= w < |s.workers| ==> WorkerKnown(s.q.log, s.workers[w]))
    && (forall c, e :: 0 <= c < |s.pends| && e in s.pends[c] ==> Known(s.q.log, e))
    && (forall c, e :: 0 <= c < |s.maints| && s.maints[c].MClear? && e in s.maints[c].items ==> Known(s.q.log, e))
  }

  lemma WorkerKnownStep(s: Sys, w: nat, step: WorkerStep)
    requires WorkerEnabled(s, w, step) && ListsKnown(s.q) && WorkerKnown(s.q.log, s.workers[w])
    ensures WorkerKnown(s.q.log, WorkerAfter(s, w, step))
  {
  }

  lemma PendsKnownStep(s: Sys, a: Action)
    requires Enabled(s, a) && ListsKnown(s.q) && HeldKnown(s)
    ensures forall c, e :: 0 <= c < |Next(s, a).pends| && e in Next(s, a).pends[c] ==> Known(s.q.log, e)
  {
    if a.OfWorker? {
      assert WorkerKnown(s.q.log, s.workers[a.w]);
    }
  }

  lemma MaintsKnownStep(s: Sys, a: Action)
    requires Enabled(s, a) && ListsKnown(s.q) && HeldKnown(s)
    ensures forall c, e | 0 <= c < |Next(s, a).maints| && Next(s, a).maints[c].MClear?
      && e in Next(s, a).maints[c].items :: Known(s.q.log, e)
  {
    if a.OfConsumer? {
      assert MaintAfter(s, a.c, a.cstep).MClear? ==>
        forall e :: e in MaintAfter(s, a.c, a.cstep).items ==> Known(s.q.log, e);
    }
  }

  lemma HeldKnownStep(s: Sys, a: Action)
    requires Enabled(s, a) && ListsKnown(s.q) && HeldKnown(s)
    ensures HeldKnown(Next(s, a))
  {
    var s' := Next(s, a);
    StepIsOp(s, a);
    LogGrows(s.q, OpOf(s, a));
    assert forall e: Envelope :: Known(s.q.log, e) ==> Known(s'.q.log, e);
    PendsKnownStep(s, a);
    MaintsKnownStep(s, a);
    forall w | 0 <= w < |s'.workers| ensures WorkerKnown(s'.q.log, s'.workers[w]) {
      if a.OfWorker? && a.w == w {
        WorkerKnownStep(s, w, a.wstep);
      } else if w < |s.workers| {
        assert WorkerKnown(s.q.log, s.workers[w]);
      }
    }
  }

  // ---------------------------------------------------------------------
  // A live worker's envelope is in its consumer's list, and is its alone
  // ---------------------------------------------------------------------

  predicate LiveBusy(s: Sys, w: nat) {
    && w < |s.workers|
    && s.workers[w].c < |s.phases| == |s.q.procs|
    && Running(s.phases[s.workers[w].c])
    && Busy(s.workers[w].pc)
  }

  /** An acknowledgement still owed by a live consumer. */
  predicate Owed(s: Sys, c: nat, e: Envelope) {
    c < |s.phases| == |s.pends| && Running(s.phases[c]) && e in s.pends[c]
  }

  ghost predicate HeldThere(s: Sys) {
    forall w: nat :: LiveBusy(s, w) ==> Count(s.q.procs[s.workers[w].c], s.workers[w].raw.id) > 0
  }

  ghost predicate HeldAlone(s: Sys) {
    forall v: nat, w: nat :: LiveBusy(s, v) && LiveBusy(s, w) && v != w ==>
      s.workers[v].raw.id != s.workers[w].raw.id
  }

  /** An owed acknowledgement is for an envelope no worker holds and main does not have. */
  ghost predicate OwedApart(s: Sys) {
    forall c: nat, e :: Owed(s, c, e) ==>
      && (forall w: nat :: LiveBusy(s, w) ==> s.workers[w].raw.id != e.id)
      && c < |s.q.procs| && (Count(s.q.procs[c], e.id) > 0 || Count(s.q.acked, e.id) > 0)
  }

  /** How an operation changes the number of occurrences of an id in one list. */
  lemma ListCountStep(q: Queues, op: Op, d: nat, id: nat)
    requires Legal(q, op) && d < |q.procs|
    requires op.Pop? && op.c == d ==> q.main[|q.main| - 1].id != id
    requires (op.GiveBack? || op.Retry? || op.Bury? || op.Ack?) && op.c == d ==> op.raw.id != id
    requires op.Requeue? ==> op.c != d
    ensures d < |Apply(q, op).procs| && Count(Apply(q, op).procs[d], id) == Count(q.procs[d], id)
  {
    match op
    case Pop(c) => CountCons(q.main[|q.main| - 1], q.procs[c], id);
    case Stamp(c, raw, startedAt) => LsetCount(q.procs[c], raw, raw.(startedAt := startedAt), id);
    case GiveBack(c, raw) => if raw in q.procs[c] { LremCount(q.procs[c], raw, id); }
    case Retry(c, raw, _) => if raw in q.procs[c] { LremCount(q.procs[c], raw, id); }
    case Bury(c, raw) => if raw in q.procs[c] { LremCount(q.procs[c], raw, id); }
    case Ack(c, raw) => if raw in q.procs[c] { LremCount(q.procs[c], raw, id); }
    case _ =>
  }

  /** In one place means in no other. */
  lemma Apart(q: Queues, c: nat, id: nat)
    requires Conserved(q) && c < |q.procs|
    ensures Count(q.procs[c], id) > 0 ==>
      && Count(q.main, id) == 0 && Count(q.acked, id) == 0 && Count(q.dead, id) == 0
      && (forall d :: 0 <= d < |q.procs| && d != c ==> Count(q.procs[d], id) == 0)
    ensures Count(q.main, id) > 0 ==> Count(q.procs[c], id) == 0 && Count(q.acked, id) == 0
  {
    assert Places(q, id) == if id < |q.log| then 1 else 0;
    ProcCountUpdate(q.procs, c, [], id);
    if Count(q.procs[c], id) > 0 {
      forall d | 0 <= d < |q.procs| && d != c ensures Count(q.procs[d], id) == 0 {
        ProcCountUpdate(q.procs[c := []], d, [], id);
      }
    }
  }

  lemma PopApart(q: Queues, c: nat)
    requires Conserved(q) && c < |q.procs| && q.main != []
    ensures var id := q.main[|q.main| - 1].id;
      && Count(q.main, id) > 0 && Count(q.acked, id) == 0
      && (forall d :: 0 <= d < |q.procs| ==> Count(q.procs[d], id) == 0)
  {
    var id := q.main[|q.main| - 1].id;
    CountMember(q.main, q.main[|q.main| - 1]);
    forall d | 0 <= d < |q.procs| ensures Count(q.procs[d], id) == 0 {
      Apart(q, d, id);
    }
    Apart(q, c, id);
  }

  /** What the proofs below assume of the state before a step. */
  ghost predicate Base(s: Sys) {
    && Shape(s) && SuspectsQuiet(s) && BeatsTimely(s)
    && Conserved(s.q) && ListsKnown(s.q) && HeldKnown(s)
  }

  lemma StillThereWorker(s: Sys, w: nat, step: WorkerStep, v: nat)
    requires WorkerEnabled(s, w, step) && Base(s) && HeldThere(s) && HeldAlone(s)
    requires LiveBusy(s, v) && w != v
    ensures Count(WorkerNext(s, w, step).q.procs[s.workers[v].c], s.workers[v].raw.id) > 0
  {
    var c, id := s.workers[v].c, s.workers[v].raw.id;
    var a := OfWorker(w, step);
    StepIsOp(s, a);
    if step.PopStep? {
      PopApart(s.q, c);
    } else if Busy(s.workers[w].pc) {
      assert LiveBusy(s, w);
    }
    ListCountStep(s.q, OpOf(s, a), c, id);
  }

  lemma StillThereConsumer(s: Sys, d: nat, step: ConsumerStep, v: nat)
    requires ConsumerEnabled(s, d, step) && Base(s) && HeldThere(s) && OwedApart(s) && LiveBusy(s, v)
    ensures Count(ConsumerNext(s, d, step).q.procs[s.workers[v].c], s.workers[v].raw.id) > 0
  {
    var c, id := s.workers[v].c, s.workers[v].raw.id;
    var a := OfConsumer(d, step);
    StepIsOp(s, a);
    if step.Expose? {
      assert !Running(s.phases[s.maints[d].owner]);
      assert s.maints[d].owner != c;
    } else if step.Flush? {
      assert Owed(s, d, step.raw);
    }
    ListCountStep(s.q, OpOf(s, a), c, id);
  }

  /** A worker that does not step keeps its envelope in its consumer's list. */
  lemma StillThere(s: Sys, a: Action, v: nat)
    requires Enabled(s, a) && Base(s) && HeldThere(s) && HeldAlone(s) && OwedApart(s)
    requires LiveBusy(s, v) && !(a.OfWorker? && a.w == v)
    ensures Count(Next(s, a).q.procs[s.workers[v].c], s.workers[v].raw.id) > 0
  {
    match a
    case OfWorker(w, step) => StillThereWorker(s, w, step, v);
    case OfConsumer(d, step) => StillThereConsumer(s, d, step, v);
    case _ =>
      StepIsOp(s, a);
      ListCountStep(s.q, OpOf(s, a), s.workers[v].c, s.workers[v].raw.id);
  }

  lemma PopsThere(s: Sys, w: nat, step: WorkerStep)
    requires WorkerEnabled(s, w, step) && step.PopStep? && Busy(WorkerAfter(s, w, step).pc)
    ensures WorkerAfter(s, w, step).raw == s.q.main[|s.q.main| - 1]
    ensures Count(Apply(s.q, WorkerOp(s, w, step)).procs[s.workers[w].c], WorkerAfter(s, w, step).raw.id) > 0
  {
    CountCons(s.q.main[|s.q.main| - 1], s.q.procs[s.workers[w].c], s.q.main[|s.q.main| - 1].id);
  }

  lemma StampsThere(s: Sys, w: nat, step: WorkerStep)
    requires WorkerEnabled(s, w, step) && step.StampStep?
    requires Count(s.q.procs[s.workers[w].c], s.workers[w].raw.id) > 0
    ensures WorkerAfter(s, w, step).raw.id == s.workers[w].raw.id
    ensures Count(Apply(s.q, WorkerOp(s, w, step)).procs[s.workers[w].c], s.workers[w].raw.id) > 0
  {
    LsetCount(s.q.procs[s.workers[w].c], s.workers[w].raw, Stamped(s, s.workers[w].raw), s.workers[w].raw.id);
  }

  /** Neither does the worker that steps, as long as it is not done with it. */
  lemma StepsThere(s: Sys, w: nat, step: WorkerStep)
    requires WorkerEnabled(s, w, step) && HeldThere(s)
    requires Busy(WorkerAfter(s, w, step).pc)
    ensures Count(WorkerNext(s, w, step).q.procs[s.workers[w].c], WorkerAfter(s, w, step).raw.id) > 0
    ensures if step.PopStep? then WorkerAfter(s, w, step).raw == s.q.main[|s.q.main| - 1]
            else LiveBusy(s, w) && WorkerAfter(s, w, step).raw.id == s.workers[w].raw.id
  {
    if step.PopStep? {
      PopsThere(s, w, step);
    } else {
      assert LiveBusy(s, w);
      if step.StampStep? {
        StampsThere(s, w, step);
      } else {
        StaysThere(s, w, step);
      }
    }
  }

  lemma StaysThere(s: Sys, w: nat, step: WorkerStep)
    requires WorkerEnabled(s, w, step) && !step.PopStep? && !step.StampStep?
    requires Busy(WorkerAfter(s, w, step).pc)
    ensures WorkerAfter(s, w, step).raw == s.workers[w].raw
    ensures Apply(s.q, WorkerOp(s, w, step)) == s.q
  {
  }

  lemma OwnThere(s: Sys, w: nat, step: WorkerStep)
    requires WorkerEnabled(s, w, step) && HeldThere(s) && LiveBusy(WorkerNext(s, w, step), w)
    ensures var s' := WorkerNext(s, w, step);
      s'.workers[w].c == s.workers[w].c && Count(s'.q.procs[s'.workers[w].c], s'.workers[w].raw.id) > 0
  {
    assert WorkerAfter(s, w, step).c == s.workers[w].c;
    StepsThere(s, w, step);
  }

  lemma HeldThereStep(s: Sys, a: Action)
    requires Enabled(s, a) && Base(s) && HeldThere(s) && HeldAlone(s) && OwedApart(s)
    requires Shape(Next(s, a))
    ensures HeldThere(Next(s, a))
  {
    var s' := Next(s, a);
    forall v: nat | LiveBusy(s', v)
      ensures Count(s'.q.procs[s'.workers[v].c], s'.workers[v].raw.id) > 0
    {
      if a.OfWorker? && a.w == v {
        OwnThere(s, v, a.wstep);
      } else {
        assert LiveBusy(s, v) && s'.workers[v] == s.workers[v];
        StillThere(s, a, v);
      }
    }
  }

  lemma HeldAloneStep(s: Sys, a: Action)
    requires Enabled(s, a) && Base(s) && HeldThere(s) && HeldAlone(s)
    requires Shape(Next(s, a))
    ensures HeldAlone(Next(s, a))
  {
    var s' := Next(s, a);
    forall v: nat, w: nat | LiveBusy(s', v) && LiveBusy(s', w) && v != w
      ensures s'.workers[v].raw.id != s'.workers[w].raw.id
    {
      if a.OfWorker? && a.w == v {
        AloneAfter(s, v, a.wstep, w);
      } else if a.OfWorker? && a.w == w {
        AloneAfter(s, w, a.wstep, v);
      } else {
        assert LiveBusy(s, v) && LiveBusy(s, w);
      }
    }
  }

  lemma AloneAfter(s: Sys, w: nat, step: WorkerStep, v: nat)
    requires WorkerEnabled(s, w, step) && Base(s) && HeldThere(s) && HeldAlone(s) && v != w
    requires LiveBusy(WorkerNext(s, w, step), w) && LiveBusy(WorkerNext(s, w, step), v)
    ensures WorkerNext(s, w, step).workers[w].raw.id != WorkerNext(s, w, step).workers[v].raw.id
  {
    AloneStep(s, w, step, v);
  }

  lemma AloneStep(s: Sys, w: nat, step: WorkerStep, v: nat)
    requires WorkerEnabled(s, w, step) && Base(s) && HeldThere(s) && HeldAlone(s)
    requires Busy(WorkerAfter(s, w, step).pc) && v != w
    requires v < |s.workers| && LiveBusy(WorkerNext(s, w, step), v)
    ensures WorkerAfter(s, w, step).raw.id != s.workers[v].raw.id
  {
    assert LiveBusy(s, v);
    StepsThere(s, w, step);
    if step.PopStep? {
      PopApart(s.q, s.workers[v].c);
    }
  }

  /** No operation but its acknowledgement takes such an id out of its list. */
  lemma OpSpares(s: Sys, a: Action, c: nat, id: nat)
    requires Enabled(s, a) && Base(s)
    requires c < |s.phases| && Running(s.phases[c]) && Count(s.q.procs[c], id) > 0
    requires forall w: nat :: LiveBusy(s, w) ==> s.workers[w].raw.id != id
    ensures var op := OpOf(s, a);
      && (op.Pop? ==> s.q.main[|s.q.main| - 1].id != id)
      && (op.GiveBack? || op.Retry? || op.Bury? ==> op.raw.id != id)
      && (op.Requeue? ==> op.c != c)
  {
    var op := OpOf(s, a);
    if op.Pop? {
      PopApart(s.q, c);
    } else if op.Requeue? {
      assert !Running(s.phases[s.maints[a.c].owner]);
    } else if op.GiveBack? || op.Retry? || op.Bury? {
      assert LiveBusy(s, a.w);
    }
  }

  lemma AckedGrows(q: Queues, op: Op, id: nat)
    requires Legal(q, op)
    ensures Count(Apply(q, op).acked, id) ==
      Count(q.acked, id) + (if op.Ack? && op.raw in q.procs[op.c] && op.raw.id == id then 1 else 0)
  {
    if op.Ack? {
      CountCons(op.raw, q.acked, id);
    }
  }

  lemma AckMoves(q: Queues, op: Op)
    requires Legal(q, op) && op.Ack?
    ensures Count(Apply(q, op).procs[op.c], op.raw.id) + Count(Apply(q, op).acked, op.raw.id)
         == Count(q.procs[op.c], op.raw.id) + Count(q.acked, op.raw.id)
  {
    AckedGrows(q, op, op.raw.id);
    if op.raw in q.procs[op.c] {
      LremCount(q.procs[op.c], op.raw, op.raw.id);
    }
  }

  /** An owed envelope stays in its list until it is acknowledged. */
  lemma OwedStays(q: Queues, op: Op, c: nat, id: nat)
    requires Legal(q, op) && c < |q.procs|
    requires Count(q.procs[c], id) > 0 || Count(q.acked, id) > 0
    requires Count(q.procs[c], id) > 0 ==>
      && (op.Pop? ==> q.main[|q.main| - 1].id != id)
      && (op.GiveBack? || op.Retry? || op.Bury? ==> op.raw.id != id)
      && (op.Requeue? ==> op.c != c)
    ensures c < |Apply(q, op).procs|
    ensures Count(Apply(q, op).procs[c], id) > 0 || Count(Apply(q, op).acked, id) > 0
  {
    AckedGrows(q, op, id);
    if Count(q.procs[c], id) > 0 {
      if op.Ack? && op.c == c && op.raw.id == id {
        AckMoves(q, op);
      } else {
        ListCountStep(q, op, c, id);
      }
    }
  }

  lemma OwedApartStep(s: Sys, a: Action)
    requires Enabled(s, a) && Base(s) && HeldThere(s) && HeldAlone(s) && OwedApart(s)
    requires Shape(Next(s, a))
    ensures OwedApart(Next(s, a))
  {
    var s' := Next(s, a);
    StepIsOp(s, a);
    forall c: nat, e | Owed(s', c, e)
      ensures forall w: nat :: LiveBusy(s', w) ==> s'.workers[w].raw.id != e.id
      ensures c < |s'.q.procs| && (Count(s'.q.procs[c], e.id) > 0 || Count(s'.q.acked, e.id) > 0)
    {
      if Owed(s, c, e) {
        OwedBefore(s, a, c, e);
      } else {
        OwedNow(s, a, c, e);
      }
    }
  }

  lemma OwedCounted(s: Sys, a: Action, c: nat, e: Envelope)
    requires Enabled(s, a) && Base(s) && HeldThere(s) && OwedApart(s)
    requires Shape(Next(s, a)) && Owed(s, c, e)
    requires c < |s.q.procs| && (Count(s.q.procs[c], e.id) > 0 || Count(s.q.acked, e.id) > 0)
    ensures c < |Next(s, a).q.procs|
    ensures Count(Next(s, a).q.procs[c], e.id) > 0 || Count(Next(s, a).q.acked, e.id) > 0
  {
    StepIsOp(s, a);
    if Count(s.q.procs[c], e.id) > 0 {
      OpSpares(s, a, c, e.id);
    }
    OwedStays(s.q, OpOf(s, a), c, e.id);
  }

  lemma OwedBefore(s: Sys, a: Action, c: nat, e: Envelope)
    requires Enabled(s, a) && Base(s) && HeldThere(s) && OwedApart(s)
    requires Shape(Next(s, a)) && Owed(s, c, e)
    ensures forall w: nat :: LiveBusy(Next(s, a), w) ==> Next(s, a).workers[w].raw.id != e.id
    ensures c < |Next(s, a).q.procs|
    ensures Count(Next(s, a).q.procs[c], e.id) > 0 || Count(Next(s, a).q.acked, e.id) > 0
  {
    var s' := Next(s, a);
    OwedCounted(s, a, c, e);
    forall w: nat | LiveBusy(s', w) ensures s'.workers[w].raw.id != e.id {
      if a.OfWorker? && a.w == w {
        StepsThere(s, w, a.wstep);
        if a.wstep.PopStep? {
          PopApart(s.q, c);
        }
      } else {
        assert LiveBusy(s, w);
      }
    }
  }

  /** A worker that could not confirm its acknowledgement leaves it owed. */
  lemma OwedNow(s: Sys, a: Action, c: nat, e: Envelope)
    requires Enabled(s, a) && Base(s) && HeldThere(s) && HeldAlone(s)
    requires Shape(Next(s, a)) && Owed(Next(s, a), c, e) && !Owed(s, c, e)
    ensures a.OfWorker? && a.wstep.AckStep? && a.wstep.f != NoFault && e == s.workers[a.w].raw
    ensures forall w: nat :: LiveBusy(Next(s, a), w) ==> Next(s, a).workers[w].raw.id != e.id
    ensures c < |Next(s, a).q.procs|
    ensures Count(Next(s, a).q.procs[c], e.id) > 0 || Count(Next(s, a).q.acked, e.id) > 0
  {
    assert a.OfWorker? && a.wstep.AckStep?;
    assert LiveBusy(s, a.w);
    if a.wstep.f != Dropped {
      AckMoves(s.q, OpOf(s, a));
    }
    forall w: nat | LiveBusy(Next(s, a), w) ensures Next(s, a).workers[w].raw.id != e.id {
      assert w != a.w && LiveBusy(s, w);
    }
  }

  /** Everything known of envelopes, lists and workers. */
  ghost predicate Held(s: Sys) {
    Base(s) && HeldThere(s) && HeldAlone(s) && OwedApart(s)
  }

  lemma HeldStep(s: Sys, a: Action)
    requires Enabled(s, a) && Held(s) && BeatsTimely(Next(s, a))
    ensures Held(Next(s, a))
  {
    ShapeStep(s, a);
    SuspectsStep(s, a);
    StepIsOp(s, a);
    ConservedStep(s.q, OpOf(s, a));
    ListsKnownStep(s.q, OpOf(s, a));
    HeldKnownStep(s, a);
    HeldThereStep(s, a);
    HeldAloneStep(s, a);
    OwedApartStep(s, a);
  }
}
