/**
 * Recovery of a dead consumer's deliveries, and two executions that lose a message: why at-least-once delivery needs
 * a message to have an id and its failed runs' releases to be heard.
 */
module DeliveryTraces {
  import opened Wrappers
  import opened QueueState
  import opened Delivery
  import opened DeliveryLocks
  import opened DeliveryNoLoss
  import opened DeliveryRecovery

  // ---------------------------------------------------------------------
  // A dead consumer's deliveries can be recovered
  // ---------------------------------------------------------------------

  /** `n` confirmed releases, then the move. */
  function ClearAndExpose(c: nat, n: nat): seq<Action> {
    if n == 0 then [OfConsumer(c, Expose(NoFault))]
    else [OfConsumer(c, Clear(NoFault))] + ClearAndExpose(c, n - 1)
  }

  /** What consumer `c` does, without faults, about an owner with `n` items. */
  function RecoveryPlan(c: nat, owner: nat, n: nat): seq<Action> {
    [OfConsumer(c, Suspect(owner)), OfConsumer(c, Snapshot(NoFault))] + ClearAndExpose(c, n)
  }

  lemma {:induction false} RequeueAll(l: seq<Envelope>, dst: seq<Envelope>)
    ensures RequeueLists(l, dst, l).0 == []
    ensures forall e :: e in l || e in dst ==> e in RequeueLists(l, dst, l).1
  {
    if l != [] {
      assert Lrem(l, l[0]) == l[1..];
      RequeueAll(l[1..], [l[0]] + dst);
    }
  }

  lemma {:induction false} ClearAndExposeWorks(s: Sys, c: nat, n: nat)
    requires Shape(s) && c < |s.phases| && s.phases[c] != Gone
    requires s.maints[c].MClear? && s.maints[c].ready && s.maints[c].owner < |s.phases|
    requires n <= |s.maints[c].items| && s.maints[c].next == |s.maints[c].items| - n
    requires s.maints[c].items == s.q.procs[s.maints[c].owner]
    requires forall j :: 0 <= j < s.maints[c].next && NeedsRelease(s.maints[c].items[j]) ==>
      s.maints[c].items[j].inbound.msgid !in s.keys
    ensures Execution(s, ClearAndExpose(c, n))
    ensures var s', items := Exec(s, ClearAndExpose(c, n)), s.maints[c].items;
      && s'.q.procs == s.q.procs[s.maints[c].owner := []]
      && (forall e :: e in items ==> e in s'.q.main && (NeedsRelease(e) ==> e.inbound.msgid !in s'.keys))
    decreases n
  {
    var items := s.maints[c].items;
    if n == 0 {
      ExposeWorks(s, c);
    } else {
      var a := OfConsumer(c, Clear(NoFault));
      assert Enabled(s, a);
      assert ClearAndExpose(c, n)[0] == a && ClearAndExpose(c, n)[1..] == ClearAndExpose(c, n - 1);
      ClearAndExposeWorks(Next(s, a), c, n - 1);
    }
  }

  lemma ExposeWorks(s: Sys, c: nat)
    requires Shape(s) && c < |s.phases| && s.phases[c] != Gone
    requires s.maints[c].MClear? && s.maints[c].ready && s.maints[c].owner < |s.phases|
    requires s.maints[c].next == |s.maints[c].items| && s.maints[c].items == s.q.procs[s.maints[c].owner]
    requires forall j :: 0 <= j < |s.maints[c].items| && NeedsRelease(s.maints[c].items[j]) ==>
      s.maints[c].items[j].inbound.msgid !in s.keys
    ensures Execution(s, ClearAndExpose(c, 0))
    ensures var s', items := Exec(s, ClearAndExpose(c, 0)), s.maints[c].items;
      && s'.q.procs == s.q.procs[s.maints[c].owner := []]
      && (forall e :: e in items ==> e in s'.q.main && (NeedsRelease(e) ==> e.inbound.msgid !in s'.keys))
  {
    var a := OfConsumer(c, Expose(NoFault));
    assert Enabled(s, a);
    assert ClearAndExpose(c, 0)[0] == a && ClearAndExpose(c, 0)[1..] == [];
    RequeueAll(s.maints[c].items, s.q.main);
  }

  /**
   * Wherever a consumer stopped, once its heartbeat has run out another one can
   * recover all its deliveries: each is back in main, and the processing key of
   * each that has one is absent, so that it can be acquired again.
   */
  lemma Recoverable(s: Sys, c: nat, owner: nat)
    requires Shape(s) && c < |s.phases| && owner < |s.phases| && c != owner
    requires Running(s.phases[c]) && s.maints[c] == MIdle && s.beats[owner] <= s.now
    requires s.q.procs[owner] != []
    ensures var plan := RecoveryPlan(c, owner, |s.q.procs[owner]|);
      && Execution(s, plan)
      && var s' := Exec(s, plan);
      && s'.q.procs == s.q.procs[owner := []]
      && (forall e :: e in s.q.procs[owner] ==>
            e in s'.q.main && (NeedsRelease(e) ==> e.inbound.msgid !in s'.keys))
  {
    var n := |s.q.procs[owner]|;
    var plan := RecoveryPlan(c, owner, n);
    var s1 := Next(s, OfConsumer(c, Suspect(owner)));
    var s2 := Next(s1, OfConsumer(c, Snapshot(NoFault)));
    ClearAndExposeWorks(s2, c, n);
    assert plan[1..][1..] == ClearAndExpose(c, n);
  }

  // ---------------------------------------------------------------------
  // Building executions
  // ---------------------------------------------------------------------

  const CFG := Config(3, 300, 600)

  /** What every state and every action of an execution must satisfy. */
  datatype Rules = Rules(state: Sys -> bool, allowed: (Sys, Action) -> bool)

  ghost predicate Reached(s: Sys, r: Rules) {
    exists acts :: Execution(Init(CFG), acts) && Along(Init(CFG), acts, r.state, r.allowed) && Exec(Init(CFG), acts) == s
  }

  lemma {:induction false} Extend(s: Sys, acts: seq<Action>, a: Action, r: Rules)
    requires Execution(s, acts) && Along(s, acts, r.state, r.allowed)
    requires Enabled(Exec(s, acts), a) && r.allowed(Exec(s, acts), a) && r.state(Next(Exec(s, acts), a))
    ensures Execution(s, acts + [a]) && Along(s, acts + [a], r.state, r.allowed)
    ensures Exec(s, acts + [a]) == Next(Exec(s, acts), a)
    decreases |acts|
  {
    if acts == [] {
      assert (acts + [a])[1..] == [];
    } else {
      Extend(Next(s, acts[0]), acts[1..], a, r);
      assert (acts + [a])[1..] == acts[1..] + [a];
    }
  }

  lemma Go(s: Sys, a: Action, r: Rules) returns (s': Sys)
    requires Reached(s, r) && Enabled(s, a) && r.allowed(s, a) && r.state(Next(s, a))
    ensures s' == Next(s, a) && Reached(s', r)
  {
    s' := Next(s, a);
    var acts :| Execution(Init(CFG), acts) && Along(Init(CFG), acts, r.state, r.allowed) && Exec(Init(CFG), acts) == s;
    Extend(Init(CFG), acts, a, r);
  }

  /** All leases in use are running, all done keys were set at time 0, and all messages have one sender. */
  ghost predicate Fresh(s: Sys) {
    && (forall v: nat | v < |s.workers| && Holding(s.workers[v].pc) && s.workers[v].token.Some? ::
          s.now < s.workers[v].token.value.until)
    && (forall m :: m in s.dones ==> s.dones[m] == DONE_TTL)
    && (forall i, j | 0 <= i < |s.q.log| && 0 <= j < |s.q.log| ::
          KeyOf(s.q.log[i].inbound) == KeyOf(s.q.log[j].inbound))
  }

  /** At time `n`, one live consumer `c` whose newest worker is `w`; nothing owed, no recovery under way. */
  ghost predicate Lone(s: Sys, c: nat, w: nat, n: nat, orderly: bool) {
    && s.cfg == CFG && s.now == n
    && |s.phases| == |s.q.procs| == |s.beats| == |s.maints| == |s.pends| == c + 1
    && s.phases[c] == Live && s.maints[c] == MIdle && s.pends[c] == {}
    && w + 1 == |s.workers| && s.workers[w].c == c
    && (n == 0 ==> forall d :: 0 <= d <= c && Running(s.phases[d]) ==> s.beats[d] == HEARTBEAT_TTL)
    && (forall d :: 0 <= d < c ==> s.phases[d] == Gone)
    && (orderly ==> Fresh(s))
  }

  /** The rules hold in every such state ... */
  ghost predicate Fair(r: Rules, c: nat, w: nat, n: nat, orderly: bool) {
    forall t :: Lone(t, c, w, n, orderly) ==> r.state(t)
  }

  /** ... and allow every action but a release, a new message and a failing lock or acquire. */
  ghost predicate Permits(r: Rules) {
    forall t, a :: Simple(a) ==> r.allowed(t, a)
  }

  predicate Simple(a: Action) {
    && !a.Enqueue?
    && !(a.OfWorker? && a.wstep.ReleaseStep?)
    && !(a.OfWorker? && a.wstep.LockStep? && a.wstep.f != NoFault)
    && !(a.OfWorker? && a.wstep.AcquireStep? && a.wstep.f != NoFault)
  }

  lemma StepLone(s: Sys, c: nat, w: nat, n: nat, orderly: bool, step: WorkerStep)
    requires Lone(s, c, w, n, orderly) && WorkerEnabled(s, w, step)
    requires step.AckStep? ==> step.f == NoFault
    requires orderly && step.MarkStep? ==> n == 0
    ensures Lone(WorkerNext(s, w, step), c, w, n, orderly)
  {
    StepIsOp(s, OfWorker(w, step));
    var s' := WorkerNext(s, w, step);
    assert |s'.q.procs| == |s.q.procs| && s'.q.log == s.q.log;
    if orderly {
      StepFresh(s, w, step);
    }
  }

  lemma StepFresh(s: Sys, w: nat, step: WorkerStep)
    requires WorkerEnabled(s, w, step) && Fresh(s) && s.cfg == CFG && (step.MarkStep? ==> s.now == 0)
    requires WorkerNext(s, w, step).q.log == s.q.log
    ensures Fresh(WorkerNext(s, w, step))
  {
    var me := WorkerAfter(s, w, step);
    assert Holding(me.pc) && me.token.Some? ==> s.now < me.token.value.until by {
      if !step.LockStep? {
        assert Holding(me.pc) ==> Holding(s.workers[w].pc) && me.token == s.workers[w].token;
      }
    }
  }

  /** One step of the newest worker. */
  lemma Do(s: Sys, c: nat, w: nat, n: nat, orderly: bool, step: WorkerStep, r: Rules) returns (s': Sys)
    requires Reached(s, r) && Lone(s, c, w, n, orderly) && Fair(r, c, w, n, orderly) && WorkerEnabled(s, w, step)
    requires step.AckStep? ==> step.f == NoFault
    requires orderly && step.MarkStep? ==> n == 0
    requires r.allowed(s, OfWorker(w, step))
    ensures Reached(s', r) && Lone(s', c, w, n, orderly)
    ensures Legal(s.q, WorkerOp(s, w, step)) && s'.q == Apply(s.q, WorkerOp(s, w, step))
    ensures s'.workers == s.workers[w := WorkerAfter(s, w, step)]
    ensures s'.keys == KeysAfter(s, w, step) && s'.locks == LocksAfter(s, w, step)
    ensures s'.dones == DonesAfter(s, w, step) && s'.h == HistoryAfter(s, w, step)
    ensures s'.phases == s.phases
  {
    StepIsOp(s, OfWorker(w, step));
    StepLone(s, c, w, n, orderly, step);
    s' := Go(s, OfWorker(w, step), r);
  }

  function Message(msgid: string): Inbound {
    Inbound(msgid, "kf", "u", "k")
  }

  /** One consumer has started. */
  function Begun(): Sys {
    Init(CFG).(q := EMPTY.(procs := [[]]), phases := [Live], beats := [HEARTBEAT_TTL], maints := [MIdle], pends := [{}])
  }

  lemma Started(r: Rules)
    requires Permits(r) && r.state(Init(CFG)) && r.state(Begun())
    ensures Reached(Begun(), r)
  {
    assert Execution(Init(CFG), []) && Exec(Init(CFG), []) == Init(CFG);
    assert Along(Init(CFG), [], r.state, r.allowed);
    assert [] + [[]] == Begun().q.procs && Next(Init(CFG), Start) == Begun();
    var s := Go(Init(CFG), Start, r);
  }

  /** The consumer gets one more worker. */
  lemma Hire(s: Sys, c: nat, w: nat, n: nat, orderly: bool, r: Rules) returns (s': Sys)
    requires Reached(s, r) && Permits(r) && Fair(r, c, w, n, orderly) && |s.workers| == w
    requires Lone(s.(workers := s.workers + [NewWorker(c)]), c, w, n, orderly)
    ensures Reached(s', r) && s' == s.(workers := s.workers + [NewWorker(c)])
  {
    assert s.maints[c := s.maints[c]] == s.maints;
    s' := Go(s, OfConsumer(c, Spawn), r);
  }

  /** One more message is accepted. */
  lemma Accept(s: Sys, c: nat, w: nat, n: nat, orderly: bool, m: Inbound, r: Rules) returns (s': Sys)
    requires Reached(s, r) && Lone(s, c, w, n, orderly) && Fair(r, c, w, n, orderly)
    requires r.allowed(s, Enqueue(m, true, true, true, NoFault))
    requires forall i :: 0 <= i < |s.q.log| ==> KeyOf(s.q.log[i].inbound) == KeyOf(m)
    ensures Reached(s', r) && Lone(s', c, w, n, orderly)
    ensures var e := Envelope(|s.q.log|, true, true, true, m, 0, 0);
      s' == s.(q := s.q.(main := [e] + s.q.main, log := s.q.log + [e], fails := s.q.fails + [0]))
  {
    s' := Go(s, Enqueue(m, true, true, true, NoFault), r);
  }

  /** One consumer, one worker, one waiting message. */
  lemma Arrive(msgid: string, r: Rules) returns (s: Sys)
    requires Permits(r) && r.state(Init(CFG)) && r.state(Begun()) && Fair(r, 0, 0, 0, true)
    requires forall t :: r.allowed(t, Enqueue(Message(msgid), true, true, true, NoFault))
    ensures Reached(s, r) && Lone(s, 0, 0, 0, true) && s.workers == [NewWorker(0)] && s.phases == [Live]
    ensures var e := Envelope(0, true, true, true, Message(msgid), 0, 0);
      s.q == EMPTY.(main := [e], procs := [[]], log := [e], fails := [0])
    ensures s.keys == map[] && s.dones == map[] && s.locks == map[] && s.h == Init(CFG).h
  {
    Started(r);
    assert Lone(Begun().(workers := [NewWorker(0)]), 0, 0, 0, true);
    assert [] + [NewWorker(0)] == [NewWorker(0)];
    var s1 := Hire(Begun(), 0, 0, 0, true, r);
    s := Accept(s1, 0, 0, 0, true, Message(msgid), r);
  }

  /** The newest worker takes the one waiting envelope and stamps it. */
  lemma PopAndClaim(s: Sys, c: nat, w: nat, n: nat, orderly: bool, e: Envelope, r: Rules) returns (s': Sys)
    requires Reached(s, r) && Permits(r) && Lone(s, c, w, n, orderly) && Fair(r, c, w, n, orderly)
    requires s.workers[w].pc == Idle && s.q.main == [e] && e.Deliverable()
    ensures Reached(s', r) && Lone(s', c, w, n, orderly) && s'.phases == s.phases
    ensures s'.q == s.q.(main := [], procs := s.q.procs[c := [e.(startedAt := n)] + s.q.procs[c]])
    ensures s'.workers == s.workers[w := s.workers[w].(pc := Locking, raw := e.(startedAt := n))]
    ensures s'.keys == s.keys && s'.dones == s.dones && s'.locks == s.locks && s'.h == s.h
  {
    var s1 := Do(s, c, w, n, orderly, PopStep(NoFault), r);
    assert s1.q == s.q.(main := [], procs := s.q.procs[c := [e] + s.q.procs[c]]);
    assert s1.workers[w] == s.workers[w].(pc := Claiming, raw := e);
    s' := ClaimHead(s1, c, w, n, orderly, e, s.q.procs[c], r);
  }

  lemma ClaimHead(s: Sys, c: nat, w: nat, n: nat, orderly: bool, e: Envelope, rest: seq<Envelope>, r: Rules) returns (s': Sys)
    requires Reached(s, r) && Permits(r) && Lone(s, c, w, n, orderly) && Fair(r, c, w, n, orderly)
    requires s.workers[w].pc == Claiming && s.workers[w].raw == e && s.q.procs[c] == [e] + rest && e.Deliverable()
    ensures Reached(s', r) && Lone(s', c, w, n, orderly) && s'.phases == s.phases
    ensures s'.q == s.q.(procs := s.q.procs[c := [e.(startedAt := n)] + rest])
    ensures s'.workers == s.workers[w := s.workers[w].(pc := Locking, raw := e.(startedAt := n))]
    ensures s'.keys == s.keys && s'.dones == s.dones && s'.locks == s.locks && s'.h == s.h
  {
    assert e in s.q.procs[c] && ([e] + rest)[1..] == rest;
    assert Lset([e] + rest, e, e.(startedAt := n)) == [e.(startedAt := n)] + rest;
    s' := Do(s, c, w, n, orderly, StampStep(NoFault), r);
  }

  /** ... and its lock, which is free. */
  lemma TakeUp(s: Sys, c: nat, w: nat, n: nat, orderly: bool, e: Envelope, r: Rules) returns (s': Sys)
    requires Reached(s, r) && Permits(r) && Lone(s, c, w, n, orderly) && Fair(r, c, w, n, orderly)
    requires s.workers[w].pc == Idle && s.q.main == [e] && s.q.procs[c] == [] && e.Deliverable() && s.locks == map[]
    ensures Reached(s', r) && Lone(s', c, w, n, orderly) && s'.phases == s.phases && |s'.workers| == |s.workers|
    ensures s'.workers[w].pc == Acquiring && s'.workers[w].raw == e.(startedAt := n) && s'.workers[w].token.Some?
    ensures s'.q == s.q.(main := [], procs := s.q.procs[c := [e.(startedAt := n)]])
    ensures s'.keys == s.keys && s'.dones == s.dones && s'.h == s.h
    ensures s'.locks == map[KeyOf(e.inbound) := s'.workers[w].token.value]
    ensures s'.workers[w].token.value.until == n + 300
  {
    var s1 := PopAndClaim(s, c, w, n, orderly, e, r);
    assert [e.(startedAt := n)] + [] == [e.(startedAt := n)];
    s' := Do(s1, c, w, n, orderly, LockStep(NoFault), r);
  }

  /** A run that finds the key taken is skipped and its envelope acknowledged. */
  lemma SkipAndAck(s: Sys, c: nat, w: nat, n: nat, orderly: bool, e: Envelope, r: Rules) returns (s': Sys)
    requires Reached(s, r) && Permits(r) && Lone(s, c, w, n, orderly) && Fair(r, c, w, n, orderly)
    requires s.workers[w].pc == Acquiring && s.workers[w].raw == e && s.q.procs[c] == [e]
    requires Taken(s, DedupKey(e.inbound))
    ensures Reached(s', r)
    ensures s'.q == s.q.(procs := s.q.procs[c := []], acked := [e] + s.q.acked)
    ensures s'.h == s.h
  {
    var s1 := Do(s, c, w, n, orderly, AcquireStep(NoFault), r);
    assert s1.q == s.q && s1.h == s.h;
    s' := UnlockAndAck(s1, c, w, n, orderly, e, r);
  }

  lemma UnlockAndAck(s: Sys, c: nat, w: nat, n: nat, orderly: bool, e: Envelope, r: Rules) returns (s': Sys)
    requires Reached(s, r) && Permits(r) && Lone(s, c, w, n, orderly) && Fair(r, c, w, n, orderly)
    requires s.workers[w].pc == Unlocking && s.workers[w].out == Returned
    requires s.workers[w].raw == e && s.q.procs[c] == [e]
    ensures Reached(s', r) && Lone(s', c, w, n, orderly) && s'.phases == s.phases && s'.workers[w].pc == Idle
    ensures s'.q == s.q.(procs := s.q.procs[c := []], acked := [e] + s.q.acked)
    ensures s'.h == s.h && s'.keys == s.keys && s'.dones == s.dones && s'.locks == LocksAfter(s, w, UnlockStep(NoFault))
  {
    var s1 := Do(s, c, w, n, orderly, UnlockStep(NoFault), r);
    assert s1.q == s.q && s1.h == s.h && s1.workers[w].pc == Acking && s1.workers[w].raw == e;
    s' := AckOnce(s1, c, w, n, orderly, e, r);
  }

  lemma AckOnce(s: Sys, c: nat, w: nat, n: nat, orderly: bool, e: Envelope, r: Rules) returns (s': Sys)
    requires Reached(s, r) && Permits(r) && Lone(s, c, w, n, orderly) && Fair(r, c, w, n, orderly)
    requires s.workers[w].pc == Acking && s.workers[w].raw == e && s.q.procs[c] == [e]
    ensures Reached(s', r) && Lone(s', c, w, n, orderly) && s'.phases == s.phases && s'.workers[w].pc == Idle
    ensures s'.q == s.q.(procs := s.q.procs[c := []], acked := [e] + s.q.acked)
    ensures s'.h == s.h && s'.keys == s.keys && s'.dones == s.dones && s'.locks == s.locks
  {
    assert Lrem([e], e) == [];
    s' := Do(s, c, w, n, orderly, AckStep(NoFault), r);
  }

  lemma LoneIsTimely(c: nat, w: nat, orderly: bool, allowed: (Sys, Action) -> bool)
    ensures Fair(Rules(BeatsTimely, allowed), c, w, 0, orderly)
    ensures BeatsTimely(Init(CFG)) && BeatsTimely(Begun())
  {
    forall t | Lone(t, c, w, 0, orderly)
      ensures BeatsTimely(t)
    {
    }
  }

  // ---------------------------------------------------------------------
  // Two ways to lose a message
  // ---------------------------------------------------------------------

  /** The message was accepted, no run of it got anywhere, and no delivery of it is left. */
  ghost predicate Lost(s: Sys) {
    && |s.q.log| == 1 && s.h.processed == {}
    && Count(s.q.main, 0) + ProcCount(s.q.procs, 0) + Count(s.q.dead, 0) == 0
  }

  /** Every message enqueued has an id. */
  predicate NamedMessages(s: Sys, a: Action) {
    a.Enqueue? ==> a.inbound.msgid != ""
  }

  ghost const NAMED := Rules(BeatsTimely, NamedMessages)

  /** A run acquires and fails before sending. */
  lemma AcquireAndFail(s: Sys, e: Envelope) returns (s': Sys)
    requires Reached(s, NAMED) && Lone(s, 0, 0, 0, true) && Fair(NAMED, 0, 0, 0, true)
    requires s.workers[0].pc == Acquiring && s.workers[0].raw == e
    requires s.keys == map[] && s.dones == map[]
    ensures Reached(s', NAMED) && Lone(s', 0, 0, 0, true)
    ensures s'.workers[0] == s.workers[0].(pc := Releasing, out := Raised)
    ensures s'.q == s.q && s'.h == s.h && s'.locks == s.locks
    ensures s'.keys == map[DedupKey(e.inbound) := Hold(e.id, 600)] && s'.dones == map[]
  {
    var s1 := Do(s, 0, 0, 0, true, AcquireStep(NoFault), NAMED);
    assert s1.workers[0] == s.workers[0].(pc := CancellingTimer) && s1.q == s.q;
    s' := FailReading(s1);
  }

  lemma FailReading(s: Sys) returns (s': Sys)
    requires Reached(s, NAMED) && Lone(s, 0, 0, 0, true) && Fair(NAMED, 0, 0, 0, true)
    requires s.workers[0].pc == CancellingTimer
    ensures Reached(s', NAMED) && Lone(s', 0, 0, 0, true)
    ensures s'.workers[0] == s.workers[0].(pc := Releasing, out := Raised)
    ensures s'.q == s.q && s'.h == s.h && s'.locks == s.locks && s'.keys == s.keys && s'.dones == s.dones
  {
    var s1 := Do(s, 0, 0, 0, true, TimerStep, NAMED);
    s' := Do(s1, 0, 0, 0, true, ReadStep(false), NAMED);
  }

  /** A run that acquires, fails, and whose release of its key goes unheard. */
  lemma FailUnheard(s: Sys, e: Envelope) returns (s': Sys)
    requires Reached(s, NAMED) && Lone(s, 0, 0, 0, true) && Fair(NAMED, 0, 0, 0, true)
    requires s.workers[0].pc == Acquiring && s.workers[0].raw == e && s.workers[0].token.Some?
    requires s.q.procs == [[e]] && s.q.main == [] && s.q.fails == [0] && e.id == 0 && e.attempts == 0
    requires s.keys == map[] && s.dones == map[]
    requires s.locks == map[KeyOf(e.inbound) := s.workers[0].token.value] && s.workers[0].token.value.until == 300
    ensures Reached(s', NAMED) && Lone(s', 0, 0, 0, true) && s'.workers[0].pc == Idle
    ensures s'.q == s.q.(main := [e.(attempts := 1)], procs := [[]], fails := [1])
    ensures s'.keys == map[DedupKey(e.inbound) := Hold(0, 600)]
    ensures s'.dones == map[] && s'.h == s.h && s'.locks == map[]
  {
    var s1 := AcquireAndFail(s, e);
    var s2 := Do(s1, 0, 0, 0, true, ReleaseStep(Dropped), NAMED);
    s' := UnlockAndRetry(s2, e);
  }

  lemma UnlockAndRetry(s: Sys, e: Envelope) returns (s': Sys)
    requires Reached(s, NAMED) && Lone(s, 0, 0, 0, true) && Fair(NAMED, 0, 0, 0, true)
    requires s.workers[0].pc == Unlocking && s.workers[0].out == Raised && s.workers[0].raw == e
    requires s.workers[0].token.Some? && s.workers[0].token.value.until == 300
    requires s.q.procs == [[e]] && s.q.main == [] && s.q.fails == [0] && e.id == 0 && e.attempts == 0
    requires s.locks == map[KeyOf(e.inbound) := s.workers[0].token.value]
    ensures Reached(s', NAMED) && Lone(s', 0, 0, 0, true) && s'.workers[0].pc == Idle
    ensures s'.q == s.q.(main := [e.(attempts := 1)], procs := [[]], fails := [1])
    ensures s'.keys == s.keys && s'.dones == s.dones && s'.h == s.h && s'.locks == map[]
  {
    var s1 := Do(s, 0, 0, 0, true, UnlockStep(NoFault), NAMED);
    assert s1.locks == map[] && s1.q == s.q;
    s' := RetryOnce(s1, e);
  }

  lemma RetryOnce(s: Sys, e: Envelope) returns (s': Sys)
    requires Reached(s, NAMED) && Lone(s, 0, 0, 0, true) && Fair(NAMED, 0, 0, 0, true)
    requires s.workers[0].pc == Retrying && s.workers[0].raw == e
    requires s.q.procs == [[e]] && s.q.main == [] && s.q.fails == [0] && e.id == 0 && e.attempts == 0
    ensures Reached(s', NAMED) && Lone(s', 0, 0, 0, true) && s'.workers[0].pc == Idle
    ensures s'.q == s.q.(main := [e.(attempts := 1)], procs := [[]], fails := [1])
    ensures s'.keys == s.keys && s'.dones == s.dones && s'.h == s.h && s'.locks == s.locks
  {
    s' := Do(s, 0, 0, 0, true, RetryStep(NoFault), NAMED);
    assert Lrem([e], e) == [];
  }

  /**
   * A failed release is enough to lose a message: with timely heartbeats and a
   * named message, one lost `release_processing` after a failed run leaves the
   * key set, and the retry is skipped and acknowledged.
   */
  lemma LostReleaseLoses() returns (s: Sys)
    ensures Reached(s, NAMED) && Lost(s)
  {
    LoneIsTimely(0, 0, true, NamedMessages);
    var s0 := Arrive("m", NAMED);
    var e := s0.q.main[0];
    var s1 := TakeUp(s0, 0, 0, 0, true, e, NAMED);
    var s2 := FailUnheard(s1, e);
    var s3 := TakeUp(s2, 0, 0, 0, true, e.(attempts := 1), NAMED);
    s := SkipAndAck(s3, 0, 0, 0, true, e.(attempts := 1), NAMED);
    assert ProcCount([[]], 0) == 0;
  }

  ghost const HEARD := Rules(BeatsTimely, HeardFor(NAMELESS))

  /** The same, with one consumer that is stopping. */
  predicate LoneStopping(s: Sys) {
    && s.cfg == CFG && s.now == 0
    && |s.phases| == |s.q.procs| == |s.beats| == |s.maints| == |s.pends| == |s.workers| == 1
    && s.phases[0] == Stopping && s.beats[0] == HEARTBEAT_TTL && s.maints[0] == MIdle && s.pends[0] == {}
    && s.workers[0].c == 0
  }

  lemma BeginStopping(s: Sys) returns (s': Sys)
    requires Reached(s, HEARD) && Lone(s, 0, 0, 0, true)
    ensures Reached(s', HEARD) && LoneStopping(s')
    ensures s' == s.(phases := [Stopping])
  {
    assert s.maints[0 := MIdle] == s.maints && s.phases[0 := Stopping] == [Stopping];
    s' := Go(s, OfConsumer(0, BeginStop), HEARD);
  }

  /** The worker is cancelled after its acquire, before the try block. */
  lemma CancelledAcquired(s: Sys, e: Envelope) returns (s': Sys)
    requires Reached(s, HEARD) && LoneStopping(s)
    requires s.workers[0].pc == CancellingTimer && s.workers[0].raw == e && s.workers[0].token.Some?
    requires s.locks == map[KeyOf(e.inbound) := s.workers[0].token.value] && s.workers[0].token.value.until == 300
    ensures Reached(s', HEARD) && LoneStopping(s') && s'.workers[0].pc == Halted
    ensures s'.q == s.q && s'.keys == s.keys && s'.h == s.h && s'.locks == map[] && s'.dones == s.dones
  {
    var s1 := Go(s, OfWorker(0, CancelStep), HEARD);
    assert LoneStopping(s1) && s1.workers[0] == s.workers[0].(pc := Unlocking, out := Cancelled, skip := false);
    s' := UnlockCancelled(s1, e);
  }

  lemma UnlockCancelled(s: Sys, e: Envelope) returns (s': Sys)
    requires Reached(s, HEARD) && LoneStopping(s)
    requires s.workers[0].pc == Unlocking && s.workers[0].out == Cancelled && s.workers[0].raw == e
    requires s.workers[0].token.Some? && s.workers[0].token.value.until == 300
    requires s.locks == map[KeyOf(e.inbound) := s.workers[0].token.value]
    ensures Reached(s', HEARD) && LoneStopping(s') && s'.workers[0].pc == Halted
    ensures s'.q == s.q && s'.keys == s.keys && s'.h == s.h && s'.locks == map[] && s'.dones == s.dones
  {
    s' := Go(s, OfWorker(0, UnlockStep(NoFault)), HEARD);
  }

  /** The stopping consumer requeues its own list; an id-less message needs no release. */
  lemma RequeueOwn(s: Sys, e: Envelope) returns (s': Sys)
    requires Reached(s, HEARD) && LoneStopping(s) && s.workers[0].pc == Halted
    requires s.q.procs == [[e]] && s.q.main == [] && !NeedsRelease(e)
    ensures Reached(s', HEARD)
    ensures s'.q == s.q.(main := [e], procs := [[]])
    ensures s' == s.(q := s'.q, phases := [Gone], beats := [0], maints := [MIdle])
  {
    var s1 := Go(s, OfConsumer(0, CancelMaint), HEARD);
    var s2 := Go(s1, OfConsumer(0, Suspect(0)), HEARD);
    var s3 := Go(s2, OfConsumer(0, Snapshot(NoFault)), HEARD);
    assert s3 == s.(phases := [Closing], maints := [MClear(0, [e], 0, true, {})]);
    s' := ExposeOwn(s3, e);
  }

  lemma ExposeOwn(s: Sys, e: Envelope) returns (s': Sys)
    requires Reached(s, HEARD) && |s.phases| == |s.beats| == |s.pends| == 1 && s.phases == [Closing]
    requires s.maints == [MClear(0, [e], 0, true, {})]
    requires s.q.procs == [[e]] && s.q.main == [] && !NeedsRelease(e)
    ensures Reached(s', HEARD)
    ensures s'.q == s.q.(main := [e], procs := [[]])
    ensures s' == s.(q := s'.q, phases := [Gone], beats := [0], maints := [MIdle])
  {
    var s1 := Go(s, OfConsumer(0, Clear(NoFault)), HEARD);
    assert s1 == s.(maints := [MClear(0, [e], 1, true, {})]);
    var s2 := MoveOwn(s1, e);
    s' := Go(s2, OfConsumer(0, FinishStop(NoFault)), HEARD);
  }

  lemma MoveOwn(s: Sys, e: Envelope) returns (s': Sys)
    requires Reached(s, HEARD) && |s.phases| == |s.beats| == |s.pends| == 1 && s.phases == [Closing]
    requires s.maints == [MClear(0, [e], 1, true, {})]
    requires s.q.procs == [[e]] && s.q.main == []
    ensures Reached(s', HEARD)
    ensures s' == s.(q := s.q.(main := [e], procs := [[]]), maints := [MIdle])
  {
    assert Lrem([e], e) == [] && [e] + [] == [e];
    assert RequeueLists([e], [], [e]) == ([], [e]);
    s' := Go(s, OfConsumer(0, Expose(NoFault)), HEARD);
  }

  lemma StartAnother(s: Sys) returns (s': Sys)
    requires Reached(s, HEARD) && s.cfg == CFG && s.now == 0
    requires |s.q.procs| == |s.pends| == |s.workers| == 1 && s.phases == [Gone] && s.beats == [0] && s.maints == [MIdle]
    ensures Reached(s', HEARD) && Lone(s', 1, 1, 0, false) && s'.workers[1].pc == Idle
    ensures s'.q == s.q.(procs := s.q.procs + [[]])
    ensures s'.keys == s.keys && s'.dones == s.dones && s'.locks == s.locks && s'.h == s.h
  {
    var s1 := Go(s, Start, HEARD);
    s' := Go(s1, OfConsumer(1, Spawn), HEARD);
  }

  /** A message without an id is cancelled between acquire and the try block, and requeued by a clean stop. */
  lemma NamelessRequeued() returns (s: Sys)
    ensures var e := Envelope(0, true, true, true, Message(""), 0, 0);
      && Reached(s, HEARD) && s.cfg == CFG && s.now == 0
      && |s.q.procs| == |s.pends| == |s.workers| == 1 && s.phases == [Gone] && s.beats == [0] && s.maints == [MIdle]
      && s.q == EMPTY.(main := [e], procs := [[]], log := [e], fails := [0])
      && s.keys == map[NAMELESS := Hold(0, 600)] && s.dones == map[] && s.locks == map[] && s.h == Init(CFG).h
  {
    var e := Envelope(0, true, true, true, Message(""), 0, 0);
    var s2 := NamelessAcquired();
    var s3 := BeginStopping(s2);
    var s4 := CancelledAcquired(s3, e);
    s := RequeueOwn(s4, e);
  }

  lemma NamelessAcquired() returns (s: Sys)
    ensures var e := Envelope(0, true, true, true, Message(""), 0, 0);
      && Reached(s, HEARD) && Lone(s, 0, 0, 0, true)
      && s.workers[0].pc == CancellingTimer && s.workers[0].raw == e && s.workers[0].token.Some?
      && s.workers[0].token.value.until == 300 && s.locks == map[KeyOf(e.inbound) := s.workers[0].token.value]
      && s.q == EMPTY.(procs := [[e]], log := [e], fails := [0])
      && s.keys == map[NAMELESS := Hold(0, 600)] && s.dones == map[] && s.h == Init(CFG).h
  {
    LoneIsTimely(0, 0, true, HeardFor(NAMELESS));
    var s0 := Arrive("", HEARD);
    var e := s0.q.main[0];
    var s1 := TakeUp(s0, 0, 0, 0, true, e, HEARD);
    assert s0.q.procs[0 := [e]] == [[e]];
    s := NamelessAcquires(s1, e);
  }

  lemma NamelessAcquires(s: Sys, e: Envelope) returns (s': Sys)
    requires Reached(s, HEARD) && Lone(s, 0, 0, 0, true) && Fair(HEARD, 0, 0, 0, true)
    requires s.workers[0].pc == Acquiring && s.workers[0].raw == e && e.id == 0 && e.inbound == Message("")
    requires s.keys == map[] && s.dones == map[]
    ensures Reached(s', HEARD) && Lone(s', 0, 0, 0, true)
    ensures s'.workers[0] == s.workers[0].(pc := CancellingTimer)
    ensures s'.q == s.q && s'.locks == s.locks && s'.h == s.h && s'.dones == map[]
    ensures s'.keys == map[NAMELESS := Hold(0, 600)]
  {
    s' := Do(s, 0, 0, 0, true, AcquireStep(NoFault), HEARD);
  }

  /**
   * So is a message without an id: it is deduplicated as "unknown", a key that
   * recovery never releases. Cancelled between acquire and the try block and
   * requeued by a clean stop, it is skipped and acknowledged by the next run.
   */
  lemma NamelessMessageLost() returns (s: Sys)
    ensures Reached(s, HEARD) && Lost(s)
  {
    LoneIsTimely(1, 1, false, HeardFor(NAMELESS));
    var e := Envelope(0, true, true, true, Message(""), 0, 0);
    var s5 := NamelessRequeued();
    var s6 := StartAnother(s5);
    var s7 := TakeUp(s6, 1, 1, 0, false, e, HEARD);
    s := SkipAndAck(s7, 1, 1, 0, false, e, HEARD);
    assert ProcCount([[]], 0) == 0 && ProcCount([[], []], 0) == ProcCount([[]], 0);
  }
}
