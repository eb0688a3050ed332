/**
 * The per-(user, scope) lock of `_run_with_lock` and the conversation state read
 * and written under it (app/services/message_queue.py,
 * app/services/message_processor.py).
 */
module DeliveryLocks {
  import opened Wrappers
  import opened QueueState
  import opened Delivery

  /** Inside `MessageProcessor.process`. */
  predicate Inside(pc: Pc) {
    pc in {Acquiring, CancellingTimer, Reading, Working, Marking, Finishing, Releasing}
  }

  /** Holding the lock: inside `process`, or about to release it. */
  predicate Holding(pc: Pc) {
    Inside(pc) || pc == Unlocking
  }

  predicate LiveWorker(s: Sys, w: nat) {
    && w < |s.workers|
    && s.workers[w].c < |s.phases|
    && Running(s.phases[s.workers[w].c])
  }

  function WorkerKey(s: Sys, w: nat): LockKey
    requires w < |s.workers|
  {
    KeyOf(s.workers[w].raw.inbound)
  }

  /** Every run under a lock has ended before its lease runs out. */
  ghost predicate Timely(s: Sys) {
    forall w: nat :: LiveWorker(s, w) && Holding(s.workers[w].pc) && s.workers[w].token.Some? ==>
      s.now < s.workers[w].token.value.until
  }

  /** SET NX on a lock key does not fail (a failed SET is taken as permission to run). */
  predicate NoLockFault(s: Sys, a: Action) {
    a.OfWorker? && a.wstep.LockStep? ==> a.wstep.f == NoFault
  }

  ghost predicate TokensOk(s: Sys) {
    && (forall w :: 0 <= w < |s.workers| ==> s.workers[w].c < |s.phases|)
    && (forall w :: 0 <= w < |s.workers| && Holding(s.workers[w].pc) ==>
          s.workers[w].token.Some? && s.workers[w].token.value.token < s.nextToken)
    && (forall v, w :: 0 <= v < w < |s.workers| && Holding(s.workers[v].pc) && Holding(s.workers[w].pc) ==>
          s.workers[v].token.value.token != s.workers[w].token.value.token)
  }

  /** A live holder's lease is the one stored under its lock key. */
  ghost predicate LeasesOk(s: Sys)
    requires TokensOk(s)
  {
    forall w: nat :: LiveWorker(s, w) && Holding(s.workers[w].pc) ==>
      WorkerKey(s, w) in s.locks && s.locks[WorkerKey(s, w)] == s.workers[w].token.value
  }

  /** The stored conversation state is the outcome of all saves, in order. */
  ghost predicate SavesOk(s: Sys) {
    forall k: LockKey :: Conv(s, k) == Lookup(s.h.saves, k, [])
  }

  /** A run that has read the conversation state still holds its latest value. */
  ghost predicate ReadsOk(s: Sys) {
    forall w: nat :: LiveWorker(s, w) && s.workers[w].pc == Working ==>
      s.workers[w].local == Conv(s, WorkerKey(s, w))
  }

  ghost predicate LockInv(s: Sys) {
    TokensOk(s) && LeasesOk(s) && SavesOk(s) && ReadsOk(s)
  }

  lemma MutualTokens(s: Sys, v: nat, w: nat)
    requires TokensOk(s) && v < |s.workers| && w < |s.workers| && v != w
    requires Holding(s.workers[v].pc) && Holding(s.workers[w].pc)
    ensures s.workers[v].token.value.token != s.workers[w].token.value.token
  {
    if v < w {
      assert s.workers[v].token.value.token != s.workers[w].token.value.token;
    } else {
      assert s.workers[w].token.value.token != s.workers[v].token.value.token;
    }
  }

  /** Two live runs inside `process` belong to different (user, scope) pairs. */
  lemma MutualExclusion(s: Sys, v: nat, w: nat)
    requires LockInv(s) && v != w
    requires LiveWorker(s, v) && LiveWorker(s, w)
    requires Holding(s.workers[v].pc) && Holding(s.workers[w].pc)
    ensures WorkerKey(s, v) != WorkerKey(s, w)
  {
    MutualTokens(s, v, w);
  }

  /** A worker comes to hold a lock only by taking a fresh token. */
  lemma TokenKept(s: Sys, w: nat, step: WorkerStep)
    requires WorkerEnabled(s, w, step) && NoLockFault(s, OfWorker(w, step))
    requires Holding(WorkerAfter(s, w, step).pc)
    ensures step.LockStep? || Holding(s.workers[w].pc)
    ensures WorkerAfter(s, w, step).token ==
      if step.LockStep? then Some(Lease(s.nextToken, s.now + s.cfg.lockTtl)) else s.workers[w].token
  {
  }

  lemma TokensUpdate(s: Sys, s': Sys, w: nat)
    requires TokensOk(s) && w < |s.workers|
    requires s'.phases == s.phases && |s'.workers| == |s.workers| && s'.nextToken >= s.nextToken
    requires forall v :: 0 <= v < |s.workers| && v != w ==> s'.workers[v] == s.workers[v]
    requires s'.workers[w].c == s.workers[w].c
    requires Holding(s'.workers[w].pc) ==>
      || (Holding(s.workers[w].pc) && s'.workers[w].token == s.workers[w].token)
      || (s'.workers[w].token.Some? && s.nextToken == s'.workers[w].token.value.token < s'.nextToken)
    ensures TokensOk(s')
  {
  }

  lemma TokensWorkerStep(s: Sys, w: nat, step: WorkerStep)
    requires WorkerEnabled(s, w, step) && TokensOk(s) && NoLockFault(s, OfWorker(w, step))
    ensures TokensOk(WorkerNext(s, w, step))
  {
    if Holding(WorkerAfter(s, w, step).pc) {
      TokenKept(s, w, step);
    }
    assert WorkerAfter(s, w, step).c == s.workers[w].c;
    TokensUpdate(s, WorkerNext(s, w, step), w);
  }

  lemma TokensConsumerStep(s: Sys, c: nat, step: ConsumerStep)
    requires ConsumerEnabled(s, c, step) && TokensOk(s)
    ensures TokensOk(ConsumerNext(s, c, step))
  {
  }

  lemma TokensStep(s: Sys, a: Action)
    requires Enabled(s, a) && TokensOk(s) && NoLockFault(s, a)
    ensures TokensOk(Next(s, a))
  {
    match a
    case OfWorker(w, step) => TokensWorkerStep(s, w, step);
    case OfConsumer(c, step) => TokensConsumerStep(s, c, step);
    case _ =>
  }

  /** Another worker's step leaves a live holder's lease in place. */
  lemma LeaseKept(s: Sys, w: nat, step: WorkerStep, v: nat)
    requires WorkerEnabled(s, w, step) && TokensOk(s) && LeasesOk(s) && Timely(s)
    requires LiveWorker(s, v) && Holding(s.workers[v].pc) && v != w
    ensures WorkerKey(s, v) in LocksAfter(s, w, step)
    ensures LocksAfter(s, w, step)[WorkerKey(s, v)] == s.workers[v].token.value
  {
    if step.UnlockStep? {
      MutualTokens(s, v, w);
    }
  }

  /** The stepping worker's own lease, if it goes on holding, is in place too. */
  lemma LeaseOwn(s: Sys, w: nat, step: WorkerStep)
    requires WorkerEnabled(s, w, step) && TokensOk(s) && LeasesOk(s)
    requires NoLockFault(s, OfWorker(w, step))
    ensures var me := WorkerAfter(s, w, step);
      Holding(me.pc) && me.token.Some? ==>
        && KeyOf(me.raw.inbound) in LocksAfter(s, w, step)
        && LocksAfter(s, w, step)[KeyOf(me.raw.inbound)] == me.token.value
  {
    var me := WorkerAfter(s, w, step);
    if Holding(me.pc) && !step.LockStep? {
      assert Holding(s.workers[w].pc) && me.token == s.workers[w].token && me.raw == s.workers[w].raw;
      assert WorkerKey(s, w) in s.locks && s.locks[WorkerKey(s, w)] == s.workers[w].token.value;
    }
  }

  lemma LeasesWorkerStep(s: Sys, w: nat, step: WorkerStep)
    requires WorkerEnabled(s, w, step) && TokensOk(s) && LeasesOk(s) && Timely(s)
    requires NoLockFault(s, OfWorker(w, step)) && TokensOk(WorkerNext(s, w, step))
    ensures LeasesOk(WorkerNext(s, w, step))
  {
    var s' := WorkerNext(s, w, step);
    LeaseOwn(s, w, step);
    forall v: nat | LiveWorker(s', v) && Holding(s'.workers[v].pc)
      ensures WorkerKey(s', v) in s'.locks && s'.locks[WorkerKey(s', v)] == s'.workers[v].token.value
    {
      if v != w {
        LeaseKept(s, w, step, v);
      }
    }
  }

  lemma LeasesStep(s: Sys, a: Action)
    requires Enabled(s, a) && TokensOk(s) && LeasesOk(s) && Timely(s) && NoLockFault(s, a)
    requires TokensOk(Next(s, a))
    ensures LeasesOk(Next(s, a))
  {
    if a.OfWorker? {
      LeasesWorkerStep(s, a.w, a.wstep);
    } else {
      var s' := Next(s, a);
      forall v: nat | LiveWorker(s', v) && Holding(s'.workers[v].pc)
        ensures LiveWorker(s, v) && s'.workers[v] == s.workers[v]
      {
      }
    }
  }

  /** A save extends the latest stored state, so none is lost. */
  lemma SavesWorkerStep(s: Sys, w: nat, step: WorkerStep)
    requires WorkerEnabled(s, w, step) && SavesOk(s) && ReadsOk(s)
    ensures SavesOk(WorkerNext(s, w, step))
  {
    var s' := WorkerNext(s, w, step);
    if step.SaveStep? {
      assert LiveWorker(s, w);
      forall k: LockKey ensures Conv(s', k) == Lookup(s'.h.saves, k, []) {
        assert Conv(s, k) == Lookup(s.h.saves, k, []);
      }
    } else {
      assert s'.conv == s.conv && s'.h.saves == s.h.saves;
      assert forall k: LockKey :: Conv(s', k) == Conv(s, k);
    }
  }

  /** A worker works on after a read or a save of its own. */
  lemma WorksOn(s: Sys, w: nat, step: WorkerStep)
    requires WorkerEnabled(s, w, step) && WorkerAfter(s, w, step).pc == Working
    ensures (step.ReadStep? && step.ok) || (step.SaveStep? && step.f == NoFault && s.workers[w].pc == Working)
    ensures WorkerAfter(s, w, step).raw == s.workers[w].raw
  {
  }

  lemma ReadsOwnStep(s: Sys, w: nat, step: WorkerStep)
    requires WorkerEnabled(s, w, step) && ReadsOk(s) && LiveWorker(s, w)
    requires WorkerAfter(s, w, step).pc == Working
    ensures WorkerAfter(s, w, step).local == Lookup(ConvAfter(s, w, step), KeyOf(WorkerAfter(s, w, step).raw.inbound), [])
  {
    WorksOn(s, w, step);
    if step.SaveStep? {
      assert s.workers[w].local == Conv(s, WorkerKey(s, w));
    }
  }

  lemma ReadsOtherStep(s: Sys, w: nat, step: WorkerStep, v: nat)
    requires WorkerEnabled(s, w, step) && LockInv(s) && v != w
    requires LiveWorker(WorkerNext(s, w, step), v) && WorkerNext(s, w, step).workers[v].pc == Working
    ensures var s' := WorkerNext(s, w, step); s'.workers[v].local == Conv(s', WorkerKey(s', v))
  {
    assert LiveWorker(s, v) && WorkerNext(s, w, step).workers[v] == s.workers[v];
    if step.SaveStep? {
      MutualExclusion(s, v, w);
    }
  }

  lemma ReadsWorkerStep(s: Sys, w: nat, step: WorkerStep, v: nat)
    requires WorkerEnabled(s, w, step) && LockInv(s)
    requires LiveWorker(WorkerNext(s, w, step), v) && WorkerNext(s, w, step).workers[v].pc == Working
    ensures var s' := WorkerNext(s, w, step); s'.workers[v].local == Conv(s', WorkerKey(s', v))
  {
    if v == w {
      assert LiveWorker(s, w);
      ReadsOwnStep(s, w, step);
    } else {
      ReadsOtherStep(s, w, step, v);
    }
  }

  lemma StateStep(s: Sys, a: Action)
    requires Enabled(s, a) && LockInv(s)
    ensures SavesOk(Next(s, a)) && ReadsOk(Next(s, a))
  {
    if a.OfWorker? {
      SavesWorkerStep(s, a.w, a.wstep);
      var s' := Next(s, a);
      forall v: nat | LiveWorker(s', v) && s'.workers[v].pc == Working
        ensures s'.workers[v].local == Conv(s', WorkerKey(s', v))
      {
        ReadsWorkerStep(s, a.w, a.wstep, v);
      }
    } else {
      var s' := Next(s, a);
      assert s'.conv == s.conv && s'.h == s.h;
      forall v: nat | LiveWorker(s', v) && s'.workers[v].pc == Working
        ensures LiveWorker(s, v) && s'.workers[v] == s.workers[v]
      {
      }
    }
  }

  lemma LockStepInv(s: Sys, a: Action)
    requires Enabled(s, a) && LockInv(s) && Timely(s) && NoLockFault(s, a)
    ensures LockInv(Next(s, a))
  {
    TokensStep(s, a);
    LeasesStep(s, a);
    StateStep(s, a);
  }

  /** The lock invariant holds along every such execution. */
  lemma {:induction false} LocksExclusive(s: Sys, acts: seq<Action>)
    requires Execution(s, acts) && Along(s, acts, Timely, NoLockFault) && LockInv(s)
    ensures LockInv(Exec(s, acts))
    decreases |acts|
  {
    if acts != [] {
      LockStepInv(s, acts[0]);
      LocksExclusive(Next(s, acts[0]), acts[1..]);
    }
  }

  /**
   * Without failing lock commands, and if every run ends within its lease, at
   * most one run per (user, scope) is inside `process` in every reachable state,
   * and every conversation state is exactly the sequence of saves made to it: no
   * run's read-modify-write loses another's.
   */
  lemma OneRunPerUser(cfg: Config, acts: seq<Action>)
    requires Execution(Init(cfg), acts) && Along(Init(cfg), acts, Timely, NoLockFault)
    ensures var s := Exec(Init(cfg), acts);
      && (forall v: nat, w: nat | v != w && LiveWorker(s, v) && LiveWorker(s, w)
            && Inside(s.workers[v].pc) && Inside(s.workers[w].pc) :: WorkerKey(s, v) != WorkerKey(s, w))
      && (forall k :: Conv(s, k) == Lookup(s.h.saves, k, []))
  {
    LocksExclusive(Init(cfg), acts);
    var s := Exec(Init(cfg), acts);
    forall v: nat, w: nat | v != w && LiveWorker(s, v) && LiveWorker(s, w)
      && Inside(s.workers[v].pc) && Inside(s.workers[w].pc)
      ensures WorkerKey(s, v) != WorkerKey(s, w)
    {
      MutualExclusion(s, v, w);
    }
  }

  // ---------------------------------------------------------------------
  // Releases, whatever fails and however long runs take
  // ---------------------------------------------------------------------

  /** Worker `w` holds this token: it runs under it or is about to release it, expired or not. */
  predicate HoldsToken(s: Sys, w: nat, token: nat) {
    && w < |s.workers| && Holding(s.workers[w].pc)
    && s.workers[w].token.Some? && s.workers[w].token.value.token == token
  }

  /** Tokens in use were all issued, each to one worker. */
  ghost predicate TokensApart(s: Sys) {
    && (forall w: nat, t: nat :: HoldsToken(s, w, t) ==> t < s.nextToken)
    && (forall v: nat, w: nat, t: nat :: HoldsToken(s, v, t) && HoldsToken(s, w, t) ==> v == w)
  }

  /** A step gives its worker at most a fresh token. */
  lemma TokenAfter(s: Sys, w: nat, step: WorkerStep, t: nat)
    requires WorkerEnabled(s, w, step) && HoldsToken(WorkerNext(s, w, step), w, t)
    ensures HoldsToken(s, w, t) || (step.LockStep? && t == s.nextToken)
  {
  }

  lemma ApartWorkerStep(s: Sys, w: nat, step: WorkerStep)
    requires WorkerEnabled(s, w, step) && TokensApart(s)
    ensures TokensApart(WorkerNext(s, w, step))
  {
    var s' := WorkerNext(s, w, step);
    assert s'.nextToken >= s.nextToken && (step.LockStep? ==> s'.nextToken > s.nextToken);
    forall v: nat, t: nat | HoldsToken(s', v, t)
      ensures HoldsToken(s, v, t) || (v == w && step.LockStep? && t == s.nextToken)
    {
      if v == w {
        TokenAfter(s, w, step, t);
      } else {
        assert s'.workers[v] == s.workers[v];
      }
    }
  }

  lemma ApartStep(s: Sys, a: Action)
    requires Enabled(s, a) && TokensApart(s)
    ensures TokensApart(Next(s, a))
  {
    if a.OfWorker? {
      ApartWorkerStep(s, a.w, a.wstep);
    } else {
      var s' := Next(s, a);
      forall w: nat, t: nat | HoldsToken(s', w, t)
        ensures HoldsToken(s, w, t)
      {
        assert w < |s.workers| && s'.workers[w] == s.workers[w];
      }
    }
  }

  lemma {:induction false} ApartAlways(s: Sys, acts: seq<Action>)
    requires Execution(s, acts) && TokensApart(s)
    ensures TokensApart(Exec(s, acts))
    decreases |acts|
  {
    if acts != [] {
      ApartStep(s, acts[0]);
      ApartAlways(Next(s, acts[0]), acts[1..]);
    }
  }

  /**
   * In every execution, with failing lock commands, expired leases, crashes and all: when one worker releases, a
   * lock that carries the token of another holder stays as it is.
   */
  lemma ReleaseSparesSuccessor(cfg: Config, acts: seq<Action>, w: nat, step: WorkerStep, v: nat, k: LockKey)
    requires Execution(Init(cfg), acts)
    requires var s := Exec(Init(cfg), acts);
      && WorkerEnabled(s, w, step) && step.UnlockStep?
      && v != w && k in s.locks && HoldsToken(s, v, s.locks[k].token)
    ensures var s := Exec(Init(cfg), acts);
      k in WorkerNext(s, w, step).locks && WorkerNext(s, w, step).locks[k] == s.locks[k]
  {
    ApartAlways(Init(cfg), acts);
    var s := Exec(Init(cfg), acts);
    if HoldsToken(s, w, s.locks[k].token) {
      assert false;
    }
  }
}
