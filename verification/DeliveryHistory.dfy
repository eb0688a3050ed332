/** What the history of an execution says, told by the actions that were taken. */
module DeliveryHistory {
  import opened Wrappers
  import opened QueueState
  import opened Delivery
  import opened DeliveryRecovery
  import opened DeliveryReplies

  /** The action is a step of this kind by a run of this message. */
  predicate StepOf(s: Sys, a: Action, m: string) {
    a.OfWorker? && a.w < |s.workers| && DedupKey(s.workers[a.w].raw.inbound) == m
  }

  /** The message was marked done, or its send was refused, which ends its run normally as well. */
  predicate Processes(s: Sys, a: Action, m: string) {
    StepOf(s, a, m) && (a.wstep.MarkStep? || a.wstep == SendStep(Refused))
  }

  /** The adapter accepted a reply to the message. */
  predicate Replies(s: Sys, a: Action, m: string) {
    StepOf(s, a, m) && a.wstep == SendStep(Delivered)
  }

  /** A run was kept from recording a reply it had sent: cancelled before its mark, or the mark did not take effect. */
  predicate CutsOff(s: Sys, a: Action, m: string) {
    && StepOf(s, a, m) && s.workers[a.w].pc == Marking && s.workers[a.w].sent
    && (a.wstep.CancelStep? || a.wstep == MarkStep(Dropped))
  }

  /** How many of the actions were such, in the states they were taken in. */
  function Times(s: Sys, acts: seq<Action>, m: string, such: (Sys, Action, string) -> bool): nat
    requires Execution(s, acts)
    decreases |acts|
  {
    if acts == [] then 0
    else (if such(s, acts[0], m) then 1 else 0) + Times(Next(s, acts[0]), acts[1..], m, such)
  }

  lemma ProcessedStep(s: Sys, a: Action, m: string)
    requires Enabled(s, a)
    ensures m in Next(s, a).h.processed <==> m in s.h.processed || Processes(s, a, m)
  {
  }

  lemma SendsStep(s: Sys, a: Action, m: string)
    requires Enabled(s, a)
    ensures Sends(Next(s, a), m) == Sends(s, m) + if Replies(s, a, m) then 1 else 0
  {
  }

  lemma BreaksStep(s: Sys, a: Action, m: string)
    requires Enabled(s, a)
    ensures Breaks(Next(s, a), m) == Breaks(s, m) + if CutsOff(s, a, m) then 1 else 0
  {
  }

  lemma {:induction false} HistoryRun(s: Sys, acts: seq<Action>, m: string)
    requires Execution(s, acts)
    ensures m in Exec(s, acts).h.processed <==> m in s.h.processed || Times(s, acts, m, Processes) > 0
    ensures Sends(Exec(s, acts), m) == Sends(s, m) + Times(s, acts, m, Replies)
    ensures Breaks(Exec(s, acts), m) == Breaks(s, m) + Times(s, acts, m, CutsOff)
    decreases |acts|
  {
    if acts != [] {
      ProcessedStep(s, acts[0], m);
      SendsStep(s, acts[0], m);
      BreaksStep(s, acts[0], m);
      HistoryRun(Next(s, acts[0]), acts[1..], m);
    }
  }

  /**
   * In every execution: a message counts as processed exactly when some action marked it done or refused its send; its
   * replies are the sends that were accepted; and its breaks the replies kept from being recorded.
   */
  lemma HistoryMeans(cfg: Config, acts: seq<Action>, m: string)
    requires Execution(Init(cfg), acts)
    ensures m in Exec(Init(cfg), acts).h.processed <==> Times(Init(cfg), acts, m, Processes) > 0
    ensures Sends(Exec(Init(cfg), acts), m) == Times(Init(cfg), acts, m, Replies)
    ensures Breaks(Exec(Init(cfg), acts), m) == Times(Init(cfg), acts, m, CutsOff)
  {
    HistoryRun(Init(cfg), acts, m);
  }
  // ---------------------------------------------------------------------
  // Why an acquire is refused
  // ---------------------------------------------------------------------

  /** The action sets the processing key of this message, or its done key. */
  predicate Keys(s: Sys, a: Action, m: string, done: bool) {
    && StepOf(s, a, m)
    && (if done then a.wstep.MarkStep? && a.wstep.f != Dropped else a.wstep.AcquireStep? && a.wstep.f != Dropped)
  }

  function Window(cfg: Config, done: bool): nat {
    if done then DONE_TTL else cfg.dedupTtl
  }

  function Until(s: Sys, m: string, done: bool): Option<nat> {
    if done then if m in s.dones then Some(s.dones[m]) else None
    else if m in s.keys then Some(s.keys[m].until) else None
  }

  /** The `n`th action set the key, to run out at `until`. */
  ghost predicate KeyedAt(s: Sys, acts: seq<Action>, n: nat, m: string, done: bool, until: nat)
    requires Execution(s, acts)
  {
    && n < |acts| && Execution(s, acts[..n])
    && Keys(Exec(s, acts[..n]), acts[n], m, done)
    && until == Exec(s, acts[..n]).now + Window(Exec(s, acts[..n]).cfg, done)
  }

  lemma KeyFrom(s: Sys, a: Action, m: string, done: bool)
    requires Enabled(s, a) && Until(Next(s, a), m, done).Some?
    ensures Until(Next(s, a), m, done) == Until(s, m, done)
      || (Keys(s, a, m, done) && Until(Next(s, a), m, done) == Some(s.now + Window(s.cfg, done)))
  {
  }

  lemma KeyedEarlier(s: Sys, acts: seq<Action>, n: nat, m: string, done: bool, until: nat)
    requires Execution(s, acts) && acts != []
    requires Execution(s, acts[..|acts| - 1]) && KeyedAt(s, acts[..|acts| - 1], n, m, done, until)
    ensures KeyedAt(s, acts, n, m, done, until)
  {
    assert acts[..|acts| - 1][..n] == acts[..n];
  }

  lemma {:induction false} KeysAreOwn(s: Sys, acts: seq<Action>, m: string, done: bool) returns (n: nat)
    requires Execution(s, acts) && Until(s, m, done).None? && Until(Exec(s, acts), m, done).Some?
    ensures KeyedAt(s, acts, n, m, done, Until(Exec(s, acts), m, done).value)
    decreases |acts|
  {
    if acts != [] {
      var last := |acts| - 1;
      ExecPrefix(s, acts, last);
      assert acts[..last + 1] == acts;
      var t := Exec(s, acts[..last]);
      KeyFrom(t, acts[last], m, done);
      if Keys(t, acts[last], m, done) && Until(Exec(s, acts), m, done) == Some(t.now + Window(t.cfg, done)) {
        n := last;
      } else {
        n := KeysAreOwn(s, acts[..last], m, done);
        KeyedEarlier(s, acts, n, m, done, Until(Exec(s, acts), m, done).value);
      }
    }
  }

  /**
   * In every execution: an acquire that is answered is refused only because a run of the very message marked it done
   * less than the done window ago, or acquired it less than the processing ttl ago.
   */
  lemma RefusedByOwn(cfg: Config, acts: seq<Action>, w: nat) returns (n: nat, done: bool)
    requires Execution(Init(cfg), acts) && WorkerEnabled(Exec(Init(cfg), acts), w, AcquireStep(NoFault))
    requires WorkerAfter(Exec(Init(cfg), acts), w, AcquireStep(NoFault)).pc == Unlocking
    ensures var s := Exec(Init(cfg), acts);
      && n < |acts| && Execution(Init(cfg), acts[..n])
      && Keys(Exec(Init(cfg), acts[..n]), acts[n], DedupKey(s.workers[w].raw.inbound), done)
      && s.now < Exec(Init(cfg), acts[..n]).now + if done then 600 else Exec(Init(cfg), acts[..n]).cfg.dedupTtl
  {
    var s := Exec(Init(cfg), acts);
    var m := DedupKey(s.workers[w].raw.inbound);
    done := m in s.dones && s.now < s.dones[m];
    n := KeysAreOwn(Init(cfg), acts, m, done);
  }
  // ---------------------------------------------------------------------
  // How a run ends and how it is booked
  // ---------------------------------------------------------------------

  /** The step ends the run's try block, or its call before that. */
  predicate EndsTry(s: Sys, w: nat, step: WorkerStep)
    requires WorkerEnabled(s, w, step)
  {
    && s.workers[w].pc in {Acquiring, CancellingTimer, Reading, Working, Marking, Finishing}
    && WorkerAfter(s, w, step).pc in {Releasing, Unlocking}
  }

  /**
   * A run ends cancelled exactly when it was cancelled; it returns exactly when its message was taken, its send was
   * refused, or everything after its mark passed; every other end is raised. Cancelled while releasing, it is
   * cancelled too; otherwise the release does not change how it ended.
   */
  lemma OutcomeMeans(s: Sys, w: nat, step: WorkerStep)
    requires WorkerEnabled(s, w, step)
    ensures EndsTry(s, w, step) ==>
      var out := WorkerAfter(s, w, step).out;
      && (out == Cancelled <==> step.CancelStep?)
      && (out == Returned <==> step == AcquireStep(NoFault) || step == SendStep(Refused) || step == FinishStep(true))
    ensures s.workers[w].pc == Releasing ==>
      && WorkerAfter(s, w, step).pc == Unlocking
      && WorkerAfter(s, w, step).out == if step.CancelStep? then Cancelled else s.workers[w].out
  {
  }

  /** The key is released exactly when the try block was entered and ended before its mark passed. */
  lemma ReleaseMeans(s: Sys, w: nat, step: WorkerStep)
    requires WorkerEnabled(s, w, step) && EndsTry(s, w, step)
    ensures WorkerAfter(s, w, step).pc == Releasing <==> s.workers[w].pc in {Reading, Working, Marking}
  {
  }

  /** What returned is acknowledged, what raised is retried or buried, and what was cancelled stays where it is. */
  lemma BookingMeans(s: Sys, w: nat, f: Fault)
    requires WorkerEnabled(s, w, UnlockStep(f))
    ensures var out, pc := s.workers[w].out, WorkerAfter(s, w, UnlockStep(f)).pc;
      && (pc == Acking <==> out == Returned) && (pc == Retrying <==> out == Raised) && (pc == Halted <==> out == Cancelled)
  {
  }
  /** Consumer `c` tries to acknowledge the delivery, after its run or from its list of owed acknowledgements. */
  predicate Acknowledges(s: Sys, a: Action, c: nat, e: Envelope) {
    || (a.OfWorker? && a.wstep.AckStep? && a.w < |s.workers| && s.workers[a.w].c == c && s.workers[a.w].raw == e)
    || (a.OfConsumer? && a.cstep.Flush? && a.c == c && a.cstep.raw == e)
  }

  function AckFault(a: Action): Fault
    requires (a.OfWorker? && a.wstep.AckStep?) || (a.OfConsumer? && a.cstep.Flush?)
  {
    if a.OfWorker? then a.wstep.f else a.cstep.f
  }

  /** An acknowledgement is owed from an attempt that was not answered until one that is. */
  lemma OwedMeans(s: Sys, a: Action, c: nat, e: Envelope)
    requires Enabled(s, a) && c < |s.pends|
    ensures c < |Next(s, a).pends|
    ensures e in Next(s, a).pends[c] <==>
      if Acknowledges(s, a, c, e) then AckFault(a) != NoFault else e in s.pends[c]
  {
  }
}
