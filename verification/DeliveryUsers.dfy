/**
 * Users do not meet: what a run reads of the conversation state and why it finds its lock busy, told by the messages
 * of its own user and scope alone (app/services/message_queue.py:528-544, app/services/message_processor.py:138-139).
 */
module DeliveryUsers {
  import opened Wrappers
  import opened QueueState
  import opened Delivery
  import opened DeliveryLocks
  import opened DeliveryRecovery

  /** The action is a save, not lost before it took effect, by a run of a message with this user and scope. */
  predicate SavesFor(s: Sys, a: Action, m: Inbound) {
    && a.OfWorker? && a.wstep.SaveStep? && a.wstep.f != Dropped
    && a.w < |s.workers| && SameKey(s.workers[a.w].raw.inbound, m)
  }

  /** What the runs of this user and scope saved, in the order they saved it. */
  function SavesBy(s: Sys, acts: seq<Action>, m: Inbound): seq<nat>
    requires Execution(s, acts)
    decreases |acts|
  {
    if acts == [] then []
    else (if SavesFor(s, acts[0], m) then [s.h.nextSave] else []) + SavesBy(Next(s, acts[0]), acts[1..], m)
  }

  lemma SaveRecorded(s: Sys, a: Action, m: Inbound)
    requires Enabled(s, a)
    ensures Lookup(Next(s, a).h.saves, KeyOf(m), []) ==
      Lookup(s.h.saves, KeyOf(m), []) + (if SavesFor(s, a, m) then [s.h.nextSave] else [])
  {
    if a.OfWorker? {
      SharedKey(s.workers[a.w].raw.inbound, m);
    }
  }

  lemma Regroup(a: seq<nat>, b: seq<nat>, c: seq<nat>)
    ensures a + b + c == a + (b + c)
  {
  }

  lemma {:induction false} SavesRecorded(s: Sys, acts: seq<Action>, m: Inbound)
    requires Execution(s, acts)
    ensures Lookup(Exec(s, acts).h.saves, KeyOf(m), []) == Lookup(s.h.saves, KeyOf(m), []) + SavesBy(s, acts, m)
    decreases |acts|
  {
    if acts != [] {
      var mid := Next(s, acts[0]);
      SaveRecorded(s, acts[0], m);
      SavesRecorded(mid, acts[1..], m);
      Regroup(Lookup(s.h.saves, KeyOf(m), []), if SavesFor(s, acts[0], m) then [s.h.nextSave] else [],
              SavesBy(mid, acts[1..], m));
    }
  }

  /**
   * Without failing lock commands, and if every run ends within its lease: a run reads exactly what the runs of its
   * own user and scope have saved, in order, and nothing of anybody else's.
   */
  lemma ReadsOwnSaves(cfg: Config, acts: seq<Action>, w: nat)
    requires Execution(Init(cfg), acts) && Along(Init(cfg), acts, Timely, NoLockFault)
    requires WorkerEnabled(Exec(Init(cfg), acts), w, ReadStep(true))
    ensures var s := Exec(Init(cfg), acts);
      WorkerAfter(s, w, ReadStep(true)).local == SavesBy(Init(cfg), acts, s.workers[w].raw.inbound)
  {
    OneRunPerUser(cfg, acts);
    var s := Exec(Init(cfg), acts);
    SavesRecorded(Init(cfg), acts, s.workers[w].raw.inbound);
    assert Conv(s, KeyOf(s.workers[w].raw.inbound)) == Lookup(s.h.saves, KeyOf(s.workers[w].raw.inbound), []);
  }

  /** In every execution at all: a save by one user's run leaves what another user's run would read as it is. */
  lemma SavesSpareOthers(cfg: Config, acts: seq<Action>, w: nat, f: Fault, v: nat)
    requires Execution(Init(cfg), acts)
    requires var s := Exec(Init(cfg), acts);
      WorkerEnabled(s, w, SaveStep(f)) && WorkerEnabled(s, v, ReadStep(true))
      && !SameKey(s.workers[w].raw.inbound, s.workers[v].raw.inbound)
    ensures var s := Exec(Init(cfg), acts);
      var s' := WorkerNext(s, w, SaveStep(f));
      && WorkerEnabled(s', v, ReadStep(true))
      && WorkerAfter(s', v, ReadStep(true)).local == WorkerAfter(s, v, ReadStep(true)).local
  {
    var s := Exec(Init(cfg), acts);
    SharedKey(s.workers[w].raw.inbound, s.workers[v].raw.inbound);
  }

  // ---------------------------------------------------------------------
  // Busy locks
  // ---------------------------------------------------------------------

  /** The action sets a lock for a message with this user and scope. */
  predicate LocksFor(s: Sys, a: Action, m: Inbound) {
    && a.OfWorker? && a.wstep.LockStep? && a.wstep.f != Dropped
    && a.w < |s.workers| && SameKey(s.workers[a.w].raw.inbound, m)
  }

  /** The `n`th action set the lock of this user and scope, to run out at `until`. */
  ghost predicate LeasedAt(s: Sys, acts: seq<Action>, n: nat, m: Inbound, until: nat)
    requires Execution(s, acts)
  {
    && n < |acts| && Execution(s, acts[..n])
    && LocksFor(Exec(s, acts[..n]), acts[n], m)
    && until == Exec(s, acts[..n]).now + Exec(s, acts[..n]).cfg.lockTtl
  }

  lemma LeaseFrom(s: Sys, a: Action, m: Inbound)
    requires Enabled(s, a) && KeyOf(m) in Next(s, a).locks
    ensures || (KeyOf(m) in s.locks && s.locks[KeyOf(m)] == Next(s, a).locks[KeyOf(m)])
            || (LocksFor(s, a, m) && Next(s, a).locks[KeyOf(m)].until == s.now + s.cfg.lockTtl)
  {
    if a.OfWorker? {
      SharedKey(s.workers[a.w].raw.inbound, m);
    }
  }

  lemma LeasedEarlier(s: Sys, acts: seq<Action>, n: nat, m: Inbound, until: nat)
    requires Execution(s, acts) && acts != []
    requires Execution(s, acts[..|acts| - 1]) && LeasedAt(s, acts[..|acts| - 1], n, m, until)
    ensures LeasedAt(s, acts, n, m, until)
  {
    assert acts[..|acts| - 1][..n] == acts[..n];
  }

  /** Every lock that is there was set, with its full lease, for a message of the very user and scope it is the key of. */
  lemma {:induction false} LeasesAreOwn(s: Sys, acts: seq<Action>, m: Inbound) returns (n: nat)
    requires Execution(s, acts) && s.locks == map[] && KeyOf(m) in Exec(s, acts).locks
    ensures LeasedAt(s, acts, n, m, Exec(s, acts).locks[KeyOf(m)].until)
    decreases |acts|
  {
    if acts != [] {
      var last := |acts| - 1;
      ExecPrefix(s, acts, last);
      assert acts[..last + 1] == acts;
      var t := Exec(s, acts[..last]);
      LeaseFrom(t, acts[last], m);
      if LocksFor(t, acts[last], m) && Exec(s, acts).locks[KeyOf(m)].until == t.now + t.cfg.lockTtl {
        n := last;
      } else {
        n := LeasesAreOwn(s, acts[..last], m);
        LeasedEarlier(s, acts, n, m, Exec(s, acts).locks[KeyOf(m)].until);
      }
    }
  }

  /**
   * In every execution at all: a run finds its lock busy only because a run of its own user and scope set it, less
   * than a lease ago. Another user's lease never stands in its way.
   */
  lemma BusyByOwnUser(cfg: Config, acts: seq<Action>, w: nat) returns (n: nat)
    requires Execution(Init(cfg), acts) && WorkerEnabled(Exec(Init(cfg), acts), w, LockStep(NoFault))
    requires WorkerAfter(Exec(Init(cfg), acts), w, LockStep(NoFault)).pc == Yielding
    ensures var s := Exec(Init(cfg), acts);
      && n < |acts| && Execution(Init(cfg), acts[..n])
      && LocksFor(Exec(Init(cfg), acts[..n]), acts[n], s.workers[w].raw.inbound)
      && s.now < Exec(Init(cfg), acts[..n]).now + Exec(Init(cfg), acts[..n]).cfg.lockTtl
  {
    n := LeasesAreOwn(Init(cfg), acts, Exec(Init(cfg), acts).workers[w].raw.inbound);
  }

  /** A step of another user's run makes no difference to whether a run finds its lock busy. */
  lemma OthersLeaveLock(s: Sys, v: nat, step: WorkerStep, w: nat)
    requires WorkerEnabled(s, v, step) && WorkerEnabled(s, w, LockStep(NoFault)) && v != w
    requires !SameKey(s.workers[v].raw.inbound, s.workers[w].raw.inbound)
    ensures var s' := WorkerNext(s, v, step);
      && WorkerEnabled(s', w, LockStep(NoFault))
      && WorkerAfter(s', w, LockStep(NoFault)).pc == WorkerAfter(s, w, LockStep(NoFault)).pc
  {
    SharedKey(s.workers[v].raw.inbound, s.workers[w].raw.inbound);
    assert |WorkerNext(s, v, step).q.procs| == |s.q.procs|;
  }
}
