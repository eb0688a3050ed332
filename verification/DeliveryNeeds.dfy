/**
 * Executions that show what the other delivery results need: heartbeats in time, runs that end within their lease,
 * lock and acquire commands that do not fail open, and a done window that has not run out.
 */
module DeliveryNeeds {
  import opened Wrappers
  import opened QueueState
  import opened Delivery
  import opened DeliveryLocks
  import opened DeliveryNoLoss
  import opened DeliveryReplies
  import opened DeliveryTraces

  predicate AnyState(s: Sys) {
    true
  }

  function Later(s: Sys, n: nat): Sys {
    s.(now := s.now + n)
  }

  /** Time passes, `n` times one second. */
  lemma {:induction false} Ticks(s: Sys, n: nat, r: Rules) returns (s': Sys)
    requires Reached(s, r) && (forall t :: r.allowed(t, Tick))
    requires forall k: nat | k <= n :: r.state(Later(s, k))
    ensures Reached(s', r) && s' == Later(s, n)
  {
    if n == 0 {
      s' := s;
    } else {
      var s1 := Ticks(s, n - 1, r);
      assert Next(s1, Tick) == Later(s, n);
      s' := Go(s1, Tick, r);
    }
  }

  function First(msgid: string): Envelope {
    Envelope(0, true, true, true, Message(msgid), 0, 0)
  }

  /** The only message is being processed, about to acquire its dedup key. */
  lemma ArriveAndTakeUp(r: Rules) returns (s: Sys)
    requires Permits(r) && r.state(Init(CFG)) && r.state(Begun()) && Fair(r, 0, 0, 0, true)
    requires forall t :: r.allowed(t, Enqueue(Message("m"), true, true, true, NoFault))
    ensures Reached(s, r) && Lone(s, 0, 0, 0, true) && s.phases == [Live]
    ensures s.q == EMPTY.(procs := [[First("m")]], log := [First("m")], fails := [0])
    ensures s.workers[0].pc == Acquiring && s.workers[0].raw == First("m") && s.workers[0].token.Some?
    ensures s.workers[0].token.value.until == 300
    ensures s.locks == map[KeyOf(Message("m")) := s.workers[0].token.value]
    ensures s.keys == map[] && s.dones == map[] && s.h == Init(CFG).h
  {
    var s0 := Arrive("m", r);
    assert s0.q.procs[0] == [] && s0.q.procs[0 := [First("m")]] == [[First("m")]];
    s := TakeUp(s0, 0, 0, 0, true, First("m"), r);
  }

  // ---------------------------------------------------------------------
  // Mutual exclusion
  // ---------------------------------------------------------------------

  /** Two live runs of one (user, scope) are inside `process` together. */
  ghost predicate Overlapping(s: Sys) {
    && LiveWorker(s, 0) && LiveWorker(s, 1) && Inside(s.workers[0].pc) && Inside(s.workers[1].pc)
    && WorkerKey(s, 0) == WorkerKey(s, 1)
  }

  /** A second worker takes up a second message of the same user, up to its lock command. */
  lemma SecondRun(s: Sys, n: nat, orderly: bool, r: Rules) returns (s': Sys)
    requires Reached(s, r) && Permits(r) && Fair(r, 0, 1, n, orderly)
    requires Lone(s, 0, 0, n, orderly) && s.phases == [Live]
    requires s.workers[0].pc == Acquiring && s.workers[0].raw == First("m")
    requires s.q == EMPTY.(procs := [[First("m")]], log := [First("m")], fails := [0])
    requires forall t :: r.allowed(t, Enqueue(Message("n"), true, true, true, NoFault))
    ensures Reached(s', r) && Lone(s', 0, 1, n, orderly) && s'.phases == [Live]
    ensures s'.workers[0] == s.workers[0] && s'.locks == s.locks
    ensures s'.workers[1].pc == Locking && s'.workers[1].raw.inbound == Message("n")
  {
    var hired := s.(workers := s.workers + [NewWorker(0)]);
    HiredLone(s, n, orderly);
    var s1 := Hire(s, 0, 1, n, orderly, r);
    var s2 := Accept(s1, 0, 1, n, orderly, Message("n"), r);
    var e := Envelope(1, true, true, true, Message("n"), 0, 0);
    assert s2.q.main == [e];
    s' := PopAndClaim(s2, 0, 1, n, orderly, e, r);
  }

  lemma HiredLone(s: Sys, n: nat, orderly: bool)
    requires Lone(s, 0, 0, n, orderly)
    ensures Lone(s.(workers := s.workers + [NewWorker(0)]), 0, 1, n, orderly)
  {
    var hired := s.(workers := s.workers + [NewWorker(0)]);
    assert forall v: nat | v < |hired.workers| && Holding(hired.workers[v].pc) :: hired.workers[v] == s.workers[v];
  }

  ghost const IN_TIME := Rules(Timely, AnyAction)

  /** A lock command that fails is taken as permission to run, next to a run that holds the lock. */
  lemma FailOpenOverlaps() returns (s: Sys)
    ensures Reached(s, IN_TIME) && Overlapping(s)
  {
    FreshIsTimely(0);
    FreshIsTimely(1);
    var s1 := ArriveAndTakeUp(IN_TIME);
    var s2 := SecondRun(s1, 0, true, IN_TIME);
    s := Do(s2, 0, 1, 0, true, LockStep(Dropped), IN_TIME);
  }

  lemma FreshIsTimely(w: nat)
    ensures Fair(IN_TIME, 0, w, 0, true)
  {
    forall t | Lone(t, 0, w, 0, true)
      ensures Timely(t)
    {
    }
  }

  ghost const LOCKS_WORK := Rules(AnyState, NoLockFault)

  /** So does a run that is still inside when its lease runs out. */
  lemma LateRunOverlaps() returns (s: Sys)
    ensures Reached(s, LOCKS_WORK) && Overlapping(s)
  {
    var s1 := ArriveAndTakeUp(LOCKS_WORK);
    var s2 := Ticks(s1, 300, LOCKS_WORK);
    var s3 := SecondRun(s2, 300, false, LOCKS_WORK);
    s := Do(s3, 0, 1, 300, false, LockStep(NoFault), LOCKS_WORK);
  }

  // ---------------------------------------------------------------------
  // Replies
  // ---------------------------------------------------------------------

  /** More replies than the interruptions account for. */
  ghost predicate AnsweredTwice(s: Sys) {
    Sends(s, "m") > 1 + Breaks(s, "m") + Crashed(s.workers, s.phases, "m")
  }

  /** From its acquire on, the worker reads the state and sends its reply. */
  lemma SendReply(s: Sys, n: nat, orderly: bool, f: Fault, r: Rules) returns (s': Sys)
    requires Reached(s, r) && Permits(r) && Lone(s, 0, 0, n, orderly) && Fair(r, 0, 0, n, orderly)
    requires s.workers[0].pc == Acquiring && DedupKey(s.workers[0].raw.inbound) == "m"
    requires r.allowed(s, OfWorker(0, AcquireStep(f))) && (f == NoFault ==> !Taken(s, "m"))
    ensures Reached(s', r) && Lone(s', 0, 0, n, orderly) && s'.phases == s.phases
    ensures s'.workers[0] == s.workers[0].(pc := Marking, sent := true, local := s'.workers[0].local)
    ensures s'.q == s.q && s'.dones == s.dones && s'.locks == s.locks
    ensures s'.h == s.h.(sends := s.h.sends["m" := Lookup(s.h.sends, "m", 0) + 1])
    ensures s'.keys == KeysAfter(s, 0, AcquireStep(f))
  {
    var s1 := Do(s, 0, 0, n, orderly, AcquireStep(f), r);
    assert s1.workers[0] == s.workers[0].(pc := CancellingTimer) && s1.q == s.q && s1.h == s.h;
    s' := ReadAndSend(s1, n, orderly, r);
  }

  lemma ReadAndSend(s: Sys, n: nat, orderly: bool, r: Rules) returns (s': Sys)
    requires Reached(s, r) && Permits(r) && Lone(s, 0, 0, n, orderly) && Fair(r, 0, 0, n, orderly)
    requires s.workers[0].pc == CancellingTimer && DedupKey(s.workers[0].raw.inbound) == "m"
    ensures Reached(s', r) && Lone(s', 0, 0, n, orderly) && s'.phases == s.phases
    ensures s'.workers[0] == s.workers[0].(pc := Marking, sent := true, local := s'.workers[0].local)
    ensures s'.q == s.q && s'.dones == s.dones && s'.locks == s.locks && s'.keys == s.keys
    ensures s'.h == s.h.(sends := s.h.sends["m" := Lookup(s.h.sends, "m", 0) + 1])
  {
    var s1 := Do(s, 0, 0, n, orderly, TimerStep, r);
    assert s1.workers[0] == s.workers[0].(pc := Reading) && s1.q == s.q;
    s' := ReadThenSend(s1, n, orderly, r);
  }

  lemma ReadOnce(s: Sys, n: nat, orderly: bool, r: Rules) returns (s': Sys)
    requires Reached(s, r) && Permits(r) && Lone(s, 0, 0, n, orderly) && Fair(r, 0, 0, n, orderly)
    requires s.workers[0].pc == Reading
    ensures Reached(s', r) && Lone(s', 0, 0, n, orderly) && s'.phases == s.phases
    ensures s'.workers[0] == s.workers[0].(pc := Working, local := s'.workers[0].local)
    ensures s'.q == s.q && s'.dones == s.dones && s'.locks == s.locks && s'.keys == s.keys && s'.h == s.h
  {
    s' := Do(s, 0, 0, n, orderly, ReadStep(true), r);
  }

  lemma ReadThenSend(s: Sys, n: nat, orderly: bool, r: Rules) returns (s': Sys)
    requires Reached(s, r) && Permits(r) && Lone(s, 0, 0, n, orderly) && Fair(r, 0, 0, n, orderly)
    requires s.workers[0].pc == Reading && DedupKey(s.workers[0].raw.inbound) == "m"
    ensures Reached(s', r) && Lone(s', 0, 0, n, orderly) && s'.phases == s.phases
    ensures s'.workers[0] == s.workers[0].(pc := Marking, sent := true, local := s'.workers[0].local)
    ensures s'.q == s.q && s'.dones == s.dones && s'.locks == s.locks && s'.keys == s.keys
    ensures s'.h == s.h.(sends := s.h.sends["m" := Lookup(s.h.sends, "m", 0) + 1])
  {
    var s1 := ReadOnce(s, n, orderly, r);
    s' := SendDelivered(s1, n, orderly, r);
  }

  lemma SendDelivered(s: Sys, n: nat, orderly: bool, r: Rules) returns (s': Sys)
    requires Reached(s, r) && Permits(r) && Lone(s, 0, 0, n, orderly) && Fair(r, 0, 0, n, orderly)
    requires s.workers[0].pc == Working && DedupKey(s.workers[0].raw.inbound) == "m"
    ensures Reached(s', r) && Lone(s', 0, 0, n, orderly) && s'.phases == s.phases
    ensures s'.workers[0] == s.workers[0].(pc := Marking, sent := true)
    ensures s'.q == s.q && s'.dones == s.dones && s'.locks == s.locks && s'.keys == s.keys
    ensures s'.h == s.h.(sends := s.h.sends["m" := Lookup(s.h.sends, "m", 0) + 1])
  {
    s' := Do(s, 0, 0, n, orderly, SendStep(Delivered), r);
  }

  /** The run marks its message done, ends and acknowledges. */
  lemma MarkAndEnd(s: Sys, e: Envelope, r: Rules) returns (s': Sys)
    requires Reached(s, r) && Permits(r) && Lone(s, 0, 0, 0, true) && Fair(r, 0, 0, 0, true)
    requires s.workers[0].pc == Marking && s.workers[0].raw == e && DedupKey(e.inbound) == "m"
    requires s.workers[0].token.Some? && s.workers[0].token.value.until == 300
    requires s.locks == map[KeyOf(e.inbound) := s.workers[0].token.value]
    requires s.q.procs == [[e]] && s.keys.Keys == {"m"} && s.dones == map[]
    ensures Reached(s', r) && Lone(s', 0, 0, 0, true) && s'.phases == s.phases && s'.workers[0].pc == Idle
    ensures s'.q == s.q.(procs := [[]], acked := [e] + s.q.acked)
    ensures s'.keys == map[] && s'.dones == map["m" := 600] && s'.locks == map[]
    ensures s'.h.sends == s.h.sends && s'.h.breaks == s.h.breaks
  {
    var s1 := Do(s, 0, 0, 0, true, MarkStep(NoFault), r);
    assert s1.keys == map[] && s1.dones == map["m" := 600] && s1.q == s.q;
    assert s1.workers[0] == s.workers[0].(pc := Finishing) && s1.locks == s.locks;
    s' := EndRun(s1, e, r);
  }

  lemma EndRun(s: Sys, e: Envelope, r: Rules) returns (s': Sys)
    requires Reached(s, r) && Permits(r) && Lone(s, 0, 0, 0, true) && Fair(r, 0, 0, 0, true)
    requires s.workers[0].pc == Finishing && s.workers[0].raw == e
    requires s.workers[0].token.Some? && s.workers[0].token.value.until == 300
    requires s.locks == map[KeyOf(e.inbound) := s.workers[0].token.value] && s.q.procs == [[e]]
    ensures Reached(s', r) && Lone(s', 0, 0, 0, true) && s'.phases == s.phases && s'.workers[0].pc == Idle
    ensures s'.q == s.q.(procs := [[]], acked := [e] + s.q.acked)
    ensures s'.keys == s.keys && s'.dones == s.dones && s'.locks == map[] && s'.h == s.h
  {
    var s1 := Finishes(s, r);
    assert LocksAfter(s1, 0, UnlockStep(NoFault)) == map[];
    s' := UnlockAndAck(s1, 0, 0, 0, true, e, r);
  }

  lemma Finishes(s: Sys, r: Rules) returns (s': Sys)
    requires Reached(s, r) && Permits(r) && Lone(s, 0, 0, 0, true) && Fair(r, 0, 0, 0, true)
    requires s.workers[0].pc == Finishing
    ensures Reached(s', r) && Lone(s', 0, 0, 0, true) && s'.phases == s.phases
    ensures s'.workers[0] == s.workers[0].(pc := Unlocking, out := Returned, skip := false)
    ensures s'.q == s.q && s'.keys == s.keys && s'.dones == s.dones && s'.locks == s.locks && s'.h == s.h
  {
    s' := Do(s, 0, 0, 0, true, FinishStep(true), r);
  }

  /** The message is answered and its done key set. */
  lemma AnswerOnce(r: Rules) returns (s: Sys)
    requires Permits(r) && r.state(Init(CFG)) && r.state(Begun()) && Fair(r, 0, 0, 0, true)
    requires forall t :: r.allowed(t, Enqueue(Message("m"), true, true, true, NoFault))
    ensures Reached(s, r) && Lone(s, 0, 0, 0, true) && s.phases == [Live] && s.workers[0].pc == Idle
    ensures s.q == EMPTY.(procs := [[]], log := [First("m")], fails := [0], acked := [First("m")])
    ensures s.keys == map[] && s.dones == map["m" := 600] && s.locks == map[]
    ensures s.h.sends == map["m" := 1] && s.h.breaks == map[]
  {
    var s1 := ArriveAndTakeUp(r);
    var s2 := SendReply(s1, 0, true, NoFault, r);
    assert s2.h.sends == map["m" := 1];
    s := MarkAndEnd(s2, First("m"), r);
    assert [First("m")] + [] == [First("m")];
  }

  /** The message is delivered again and taken up again. */
  lemma Redeliver(s: Sys, n: nat, r: Rules) returns (s': Sys)
    requires Reached(s, r) && Permits(r) && Lone(s, 0, 0, n, true) && Fair(r, 0, 0, n, true)
    requires forall t :: r.allowed(t, Enqueue(Message("m"), true, true, true, NoFault))
    requires s.workers[0].pc == Idle && s.phases == [Live] && s.locks == map[]
    requires s.q == EMPTY.(procs := [[]], log := [First("m")], fails := [0], acked := [First("m")])
    ensures Reached(s', r) && Lone(s', 0, 0, n, true) && s'.phases == [Live]
    ensures s'.workers[0].pc == Acquiring && s'.workers[0].raw.inbound == Message("m")
    ensures s'.keys == s.keys && s'.dones == s.dones && s'.h == s.h
  {
    var s1 := Accept(s, 0, 0, n, true, Message("m"), r);
    var e := Envelope(1, true, true, true, Message("m"), 0, 0);
    assert s1.q.main == [e] && s1.q.procs[0] == [];
    s' := TakeUp(s1, 0, 0, n, true, e, r);
  }

  /** The second reply is not accounted for by any interruption. */
  lemma TwoReplies(s: Sys)
    requires s.phases == [Live] && |s.workers| == 1 && s.workers[0].c == 0
    requires s.h.sends == map["m" := 2] && s.h.breaks == map[]
    ensures AnsweredTwice(s)
  {
    assert Crashed(s.workers[..0], s.phases, "m") == 0;
  }

  ghost const ORDERLY := Rules(OrderlyFor("m"), NoLockFault)

  lemma FreshIsOrderly()
    ensures Fair(ORDERLY, 0, 0, 0, true)
    ensures OrderlyFor("m")(Init(CFG)) && OrderlyFor("m")(Begun())
  {
    forall t | Lone(t, 0, 0, 0, true)
      ensures OrderlyFor("m")(t)
    {
      assert Timely(t) && SameSender(t.q, "m") && WithinWindow(t, "m");
    }
  }

  /** An acquire that fails open answers a message that was answered before. */
  lemma FailOpenAcquireAnswersTwice() returns (s: Sys)
    ensures Reached(s, ORDERLY) && AnsweredTwice(s)
  {
    FreshIsOrderly();
    var s1 := AnswerOnce(ORDERLY);
    var s2 := Redeliver(s1, 0, ORDERLY);
    s := AnswerAgain(s2, 0, Dropped, ORDERLY);
  }

  lemma AnswerAgain(s: Sys, n: nat, f: Fault, r: Rules) returns (s': Sys)
    requires Reached(s, r) && Permits(r) && Lone(s, 0, 0, n, true) && Fair(r, 0, 0, n, true)
    requires s.workers[0].pc == Acquiring && s.workers[0].raw.inbound == Message("m") && s.phases == [Live]
    requires r.allowed(s, OfWorker(0, AcquireStep(f))) && (f == NoFault ==> !Taken(s, "m"))
    requires s.h.sends == map["m" := 1] && s.h.breaks == map[]
    ensures Reached(s', r) && AnsweredTwice(s')
  {
    s' := SendReply(s, n, true, f, r);
    assert s'.h.sends == map["m" := 2];
    TwoReplies(s');
  }

  /** Everything `Orderly` asks for except the done window. */
  ghost predicate OneSenderInTime(s: Sys) {
    Timely(s) && SameSender(s.q, "m")
  }

  ghost const WINDOWLESS := Rules(OneSenderInTime, NoFailOpenFor("m"))

  lemma FreshIsInTime(n: nat)
    ensures Fair(WINDOWLESS, 0, 0, n, true)
  {
    forall t | Lone(t, 0, 0, n, true)
      ensures OneSenderInTime(t)
    {
    }
  }

  lemma WaitsIdle(s: Sys, n: nat) returns (s': Sys)
    requires Reached(s, WINDOWLESS) && Lone(s, 0, 0, 0, true) && s.workers[0].pc == Idle
    ensures Reached(s', WINDOWLESS) && s' == s.(now := n) && Lone(s', 0, 0, n, true)
  {
    forall k: nat | k <= n
      ensures OneSenderInTime(Later(s, k))
    {
    }
    s' := Ticks(s, n, WINDOWLESS);
  }

  /** So does a delivery that comes after the done window. */
  lemma LateDeliveryAnswersTwice() returns (s: Sys)
    ensures Reached(s, WINDOWLESS) && AnsweredTwice(s)
  {
    FreshIsInTime(0);
    FreshIsInTime(600);
    var s1 := AnswerOnce(WINDOWLESS);
    var s2 := WaitsIdle(s1, 600);
    var s3 := Redeliver(s2, 600, WINDOWLESS);
    s := AnswerAgain(s3, 600, NoFault, WINDOWLESS);
  }

  // ---------------------------------------------------------------------
  // At least once
  // ---------------------------------------------------------------------

  ghost const NO_BEATS := Rules(AnyState, HeardFor("m"))

  /** Consumer 0's run is about to acquire; its heartbeat and lease have run out, and consumer 1 has just started. */
  ghost predicate Lapsed(s: Sys) {
    && s.cfg == CFG && s.now == 300
    && s.phases == [Live, Live] && s.beats == [60, 360] && s.pends == [{}, {}] && s.maints == [MIdle, MIdle]
    && s.q == EMPTY.(procs := [[First("m")], []], log := [First("m")], fails := [0])
    && |s.workers| == 2 && s.workers[0].c == 0 && s.workers[1] == NewWorker(1)
    && s.workers[0].pc == Acquiring && s.workers[0].raw == First("m")
    && KeyOf(Message("m")) in s.locks && s.locks[KeyOf(Message("m"))].until == 300
    && s.keys == map[] && s.dones == map[] && s.h == Init(CFG).h
  }

  lemma HeartbeatLapses() returns (s: Sys)
    ensures Reached(s, NO_BEATS) && Lapsed(s)
  {
    var s1 := ArriveAndTakeUp(NO_BEATS);
    var s2 := Ticks(s1, 300, NO_BEATS);
    assert s2.beats == [60] && s2.pends == [{}] && s2.maints == [MIdle] && s2.phases == [Live];
    s := AnotherStarts(s2);
    assert s.workers == s1.workers + [NewWorker(1)] && [[First("m")]] + [[]] == [[First("m")], []];
  }

  lemma AnotherStarts(s: Sys) returns (s': Sys)
    requires Reached(s, NO_BEATS) && s.cfg == CFG && s.now == 300
    requires s.phases == [Live] && s.beats == [60] && s.pends == [{}] && s.maints == [MIdle]
    requires |s.q.procs| == 1 && |s.workers| == 1
    ensures Reached(s', NO_BEATS)
    ensures s' == s.(q := s.q.(procs := s.q.procs + [[]]), phases := [Live, Live], beats := [60, 360],
                     maints := [MIdle, MIdle], pends := [{}, {}], workers := s.workers + [NewWorker(1)])
  {
    var s1 := Go(s, Start, NO_BEATS);
    assert s1.maints[1 := MIdle] == s1.maints;
    s' := Go(s1, OfConsumer(1, Spawn), NO_BEATS);
  }

  /** Consumer 1 suspects consumer 0 and confirms that the message's key is absent. */
  lemma SuspectAndClear(s: Sys) returns (s': Sys)
    requires Reached(s, NO_BEATS) && Lapsed(s)
    ensures Reached(s', NO_BEATS)
    ensures s' == s.(maints := [MIdle, MClear(0, [First("m")], 1, true, {"m"})])
  {
    var s1 := Go(s, OfConsumer(1, Suspect(0)), NO_BEATS);
    assert s1 == s.(maints := [MIdle, MSuspect(0)]);
    var s2 := Go(s1, OfConsumer(1, Snapshot(NoFault)), NO_BEATS);
    assert s2 == s.(maints := [MIdle, MClear(0, [First("m")], 0, true, {})]);
    s' := ClearOne(s2, s);
  }

  lemma ClearOne(s: Sys, before: Sys) returns (s': Sys)
    requires Lapsed(before) && s == before.(maints := [MIdle, MClear(0, [First("m")], 0, true, {})])
    requires Reached(s, NO_BEATS)
    ensures Reached(s', NO_BEATS)
    ensures s' == before.(maints := [MIdle, MClear(0, [First("m")], 1, true, {"m"})])
  {
    assert s.keys - {"m"} == map[] && {} + {"m"} == {"m"};
    s' := Go(s, OfConsumer(1, Clear(NoFault)), NO_BEATS);
  }

  /** Only then does consumer 0's run acquire the key; consumer 1 exposes the delivery, and consumer 0 crashes. */
  lemma AcquireBetween(s: Sys, before: Sys) returns (s': Sys)
    requires Lapsed(before) && s == before.(maints := [MIdle, MClear(0, [First("m")], 1, true, {"m"})])
    requires Reached(s, NO_BEATS)
    ensures Reached(s', NO_BEATS)
    ensures s'.keys == map["m" := Hold(0, 900)] && s'.dones == map[] && s'.h == before.h && s'.locks == before.locks
    ensures |s'.workers| == 2 && s'.workers[1] == NewWorker(1)
    ensures s' == before.(maints := s.maints, keys := s'.keys, workers := s'.workers)
  {
    s' := Go(s, OfWorker(0, AcquireStep(NoFault)), NO_BEATS);
    assert s'.pends == s.pends && s'.q == s.q;
  }

  lemma ExposeAndCrash(s: Sys) returns (s': Sys)
    requires Reached(s, NO_BEATS) && |s.workers| == 2
    requires s.phases == [Live, Live] && |s.beats| == |s.pends| == 2
    requires s.maints == [MIdle, MClear(0, [First("m")], 1, true, {"m"})]
    requires s.q == EMPTY.(procs := [[First("m")], []], log := [First("m")], fails := [0])
    ensures Reached(s', NO_BEATS)
    ensures |s'.workers| == 2 && s' == s.(maints := [MIdle, MIdle], phases := [Gone, Live],
                     q := EMPTY.(main := [First("m")], procs := [[], []], log := [First("m")], fails := [0]))
  {
    var e := First("m");
    assert [e] + [] == [e] && [e][1..] == [] && Lrem([e], e) == [];
    assert RequeueLists([e], [], [e]) == ([], [e]);
    assert s.q.procs[0 := []] == [[], []] && s.maints[1 := MIdle] == [MIdle, MIdle];
    var s1 := Go(s, OfConsumer(1, Expose(NoFault)), NO_BEATS);
    assert s1 == s.(maints := [MIdle, MIdle], q := EMPTY.(main := [e], procs := [[], []], log := [e], fails := [0]));
    assert s1.maints[0 := MIdle] == s1.maints && s1.phases[0 := Gone] == [Gone, Live];
    s' := Go(s1, OfConsumer(0, Crash), NO_BEATS);
  }

  /** Consumer 1's own worker is refused by the key still set, and acknowledges. */
  lemma RefusedAndAcked(s: Sys) returns (s': Sys)
    requires Reached(s, NO_BEATS) && Lone(s, 1, 1, 300, false) && s.workers[1].pc == Idle
    requires s.q == EMPTY.(main := [First("m")], procs := [[], []], log := [First("m")], fails := [0])
    requires KeyOf(Message("m")) in s.locks && s.locks[KeyOf(Message("m"))].until == 300
    requires s.keys == map["m" := Hold(0, 900)]
    ensures Reached(s', NO_BEATS) && s'.h == s.h
    ensures s'.q.log == [First("m")] && s'.q.main == [] && s'.q.dead == [] && s'.q.procs == [[], []]
  {
    var e := First("m").(startedAt := 300);
    var s1 := PopAndClaim(s, 1, 1, 300, false, First("m"), NO_BEATS);
    assert [e] + [] == [e] && s1.q.procs == [[], [e]];
    var s2 := Do(s1, 1, 1, 300, false, LockStep(NoFault), NO_BEATS);
    s' := SkipAndAck(s2, 1, 1, 300, false, e, NO_BEATS);
  }

  /**
   * A heartbeat that lapses while its consumer still works loses a message, although no release is lost: the key is
   * confirmed absent, then set by the suspected consumer, which crashes; the exposed delivery is skipped.
   */
  lemma LateHeartbeatLoses() returns (s: Sys)
    ensures Reached(s, NO_BEATS) && Lost(s)
  {
    var s1 := HeartbeatLapses();
    var s2 := SuspectAndClear(s1);
    var s3 := AcquireBetween(s2, s1);
    var s4 := ExposeAndCrash(s3);
    s := RefusedAndAcked(s4);
    assert ProcCount([[], []], 0) == ProcCount([[]], 0) == 0;
  }
}
