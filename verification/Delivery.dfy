/**
 * The delivery protocol as a transition system: consumers and their workers
 * (app/services/message_queue.py), the acquire / send / mark_done bracket of
 * `MessageProcessor.process` (app/services/message_processor.py) and the Redis
 * dedup store (app/services/dedup_store.py), over one shared Redis.
 *
 * Each awaited Redis command, and each await of the processor whose outcome
 * matters, is one step; steps of different workers and consumers interleave
 * freely. A command may fail before it took effect (`Dropped`) or after it did
 * (`Applied`). A consumer may crash between any two steps; a worker may be
 * cancelled at any of its awaits while its consumer is stopping. How the reply
 * is computed is left open.
 */
module Delivery {
  import opened Wrappers
  import opened QueueState

  datatype LockKey = LockKey(user: string, scope: string)

  /** The (user, scope) pair that names both the lock and the conversation state. */
  function KeyOf(m: Inbound): LockKey {
    LockKey(
      if m.userId == "" then "anon" else m.userId,
      if m.protocol == "bot" then "bot" else if m.openKfid == "" then "kf" else m.openKfid)
  }

  predicate IsBot(m: Inbound) {
    m.protocol == "bot"
  }

  /** One user, as far as the keys go: a missing user id stands for the user called "anon". */
  predicate SameUser(a: Inbound, b: Inbound) {
    a.userId == b.userId || (a.userId in {"", "anon"} && b.userId in {"", "anon"})
  }

  /**
   * One scope, as far as the keys go: all bot messages, or the messages of one kf account, where a missing account
   * stands for the one called "kf"; and an account called "bot" is not told from the bot.
   */
  predicate SameScope(a: Inbound, b: Inbound) {
    if IsBot(a) && IsBot(b) then true
    else if IsBot(a) then b.openKfid == "bot"
    else if IsBot(b) then a.openKfid == "bot"
    else a.openKfid == b.openKfid || (a.openKfid in {"", "kf"} && b.openKfid in {"", "kf"})
  }

  predicate SameKey(a: Inbound, b: Inbound) {
    SameUser(a, b) && SameScope(a, b)
  }

  /** Two messages share lock and conversation state exactly when user and scope are one; never two named users. */
  lemma SharedKey(a: Inbound, b: Inbound)
    ensures KeyOf(a) == KeyOf(b) <==> SameKey(a, b)
    ensures a.userId != "" && b.userId != "" && a.userId != b.userId ==> KeyOf(a) != KeyOf(b)
  {
  }

  /** The Redis key of a lock, and with another prefix of a conversation state. */
  function KeyText(k: LockKey): string {
    "wecom:lock:" + k.user + ":" + k.scope
  }

  lemma {:induction false} FirstColon(u: string, v: string, s: string, t: string)
    requires ':' !in u && ':' !in v && u + ":" + s == v + ":" + t
    ensures u == v && s == t
    decreases |u|
  {
    assert (u + ":" + s)[|u|] == ':' && (v + ":" + t)[|v|] == ':';
    assert forall k | 0 <= k < |u| :: (u + ":" + s)[k] == u[k];
    assert forall k | 0 <= k < |v| :: (v + ":" + t)[k] == v[k];
    assert |u| == |v|;
    assert u == (u + ":" + s)[..|u|] && v == (v + ":" + t)[..|v|];
    assert s == (u + ":" + s)[|u| + 1..] && t == (v + ":" + t)[|v| + 1..];
  }

  /** The text of a key tells users without a colon apart; with one, the colon can be read either way. */
  lemma KeyTexts(k: LockKey, l: LockKey)
    ensures ':' !in k.user && ':' !in l.user ==> (KeyText(k) == KeyText(l) <==> k == l)
    ensures KeyText(LockKey("a:b", "c")) == KeyText(LockKey("a", "b:c"))
  {
    if ':' !in k.user && ':' !in l.user && KeyText(k) == KeyText(l) {
      var p := "wecom:lock:";
      assert KeyText(k) == p + (k.user + ":" + k.scope) && KeyText(l) == p + (l.user + ":" + l.scope);
      assert KeyText(k)[|p|..] == k.user + ":" + k.scope && KeyText(l)[|p|..] == l.user + ":" + l.scope;
      FirstColon(k.user, l.user, k.scope, l.scope);
    }
    assert KeyText(LockKey("a:b", "c")) == "wecom:lock:a:b:c" == KeyText(LockKey("a", "b:c"));
  }

  /** The id `process` deduplicates on. */
  function DedupKey(m: Inbound): string {
    if m.msgid == "" then "unknown" else m.msgid
  }

  /** Messages are told apart by their ids, except that those without one pass for the one called "unknown". */
  lemma DedupKeys(a: Inbound, b: Inbound)
    ensures DedupKey(a) == DedupKey(b) <==>
      a.msgid == b.msgid || (a.msgid in {"", "unknown"} && b.msgid in {"", "unknown"})
    ensures a.msgid != "" ==> DedupKey(a) == a.msgid
  {
  }

  const HEARTBEAT_TTL: nat := 60
  const DONE_TTL: nat := 600

  datatype Config = Config(maxAttempts: nat, lockTtl: nat, dedupTtl: nat)

  datatype SendResult = Delivered | Refused | SendError
  datatype Outcome = Returned | Raised | Cancelled

  /**
   * A consumer process: serving; stopping, its workers being cancelled; its
   * maintenance task ended too and its own list being requeued; ended.
   */
  datatype Phase = Live | Stopping | Closing | Gone

  /**
   * Workers may run, and so may the steps of a maintenance round. `stop` sets
   * the flag that ends the maintenance loop first (app/services/message_queue.py:231,
   * 273), so only the round then under way goes on while stopping. Any step of
   * a round is enabled here, which allows more executions than the code has.
   */
  predicate Running(p: Phase) {
    p == Live || p == Stopping
  }

  /** A held lock: its token and the instant its key expires. */
  datatype Lease = Lease(token: nat, until: nat)

  /** A dedup processing key; `owner` is history: the id of the envelope whose run set it. */
  datatype Hold = Hold(owner: nat, until: nat)

  /** The await a worker is at. */
  datatype Pc =
    | Idle            // waiting in BLMOVE
    | Claiming        // about to write processing_started_at
    | Locking         // about to SET NX the lock
    | Burying         // undeliverable: about to move to dead
    | Yielding        // lock busy: about to move back to main
    | Acquiring       // in process: about to acquire the dedup key
    | CancellingTimer // acquired, not yet inside the try block
    | Reading         // about to read the conversation state
    | Working         // computing and sending the reply
    | Marking         // sent (or nothing to send): about to mark done
    | Finishing       // marked: acknowledgements, timers, Chatwoot
    | Releasing       // finally: about to release the processing key
    | Unlocking       // about to release the lock
    | Acking          // success: about to LREM
    | Retrying        // counted failure: about to move to main or dead
    | Halted          // the worker task has ended

  datatype Worker = Worker(
    c: nat,
    pc: Pc,
    raw: Envelope,
    token: Option<Lease>,
    local: seq<nat>,
    sent: bool,
    out: Outcome,
    skip: bool)

  /**
   * Where `_recover_proc_key` is: nothing to recover, an owner found without
   * heartbeat, or releasing the dedup keys of the snapshot `items` one by one.
   * `cleared` is history: the ids whose release was confirmed since the snapshot.
   */
  datatype Maint =
    | MIdle
    | MSuspect(owner: nat)
    | MClear(owner: nat, items: seq<Envelope>, next: nat, ready: bool, cleared: set<string>)

  /**
   * What has happened so far: ids whose run was marked done or ended after a
   * failed send, successful sends, interruptions between a successful send and
   * its mark_done, and every save of a conversation state in order.
   */
  datatype History = History(
    processed: set<string>,
    sends: map<string, nat>,
    breaks: map<string, nat>,
    saves: map<LockKey, seq<nat>>,
    nextSave: nat)

  datatype Sys = Sys(
    cfg: Config,
    now: nat,
    q: Queues,
    phases: seq<Phase>,
    beats: seq<nat>,
    maints: seq<Maint>,
    pends: seq<set<Envelope>>,
    workers: seq<Worker>,
    locks: map<LockKey, Lease>,
    keys: map<string, Hold>,
    dones: map<string, nat>,
    conv: map<LockKey, seq<nat>>,
    nextToken: nat,
    h: History)

  function Lookup<K, V>(m: map<K, V>, k: K, default: V): V {
    if k in m then m[k] else default
  }

  // ---------------------------------------------------------------------
  // Steps of a worker
  // ---------------------------------------------------------------------

  datatype WorkerStep =
    | PopStep(f: Fault)
    | StampStep(f: Fault)
    | LockStep(f: Fault)
    | BuryStep(f: Fault)
    | YieldStep(f: Fault)
    | AcquireStep(f: Fault)
    | TimerStep
    | ReadStep(ok: bool)
    | SaveStep(f: Fault)
    | RaiseStep
    | SendStep(r: SendResult)
    | NoReplyStep
    | MarkStep(f: Fault)
    | FinishStep(ok: bool)
    | ReleaseStep(f: Fault)
    | UnlockStep(f: Fault)
    | AckStep(f: Fault)
    | RetryStep(f: Fault)
    | CancelStep

  /** The await at which a step other than cancellation happens. */
  function At(step: WorkerStep): Pc {
    match step
    case PopStep(_) => Idle
    case StampStep(_) => Claiming
    case LockStep(_) => Locking
    case BuryStep(_) => Burying
    case YieldStep(_) => Yielding
    case AcquireStep(_) => Acquiring
    case TimerStep => CancellingTimer
    case ReadStep(_) => Reading
    case SaveStep(_) => Working
    case RaiseStep => Working
    case SendStep(_) => Working
    case NoReplyStep => Working
    case MarkStep(_) => Marking
    case FinishStep(_) => Finishing
    case ReleaseStep(_) => Releasing
    case UnlockStep(_) => Unlocking
    case AckStep(_) => Acking
    case RetryStep(_) => Retrying
    case CancelStep => Halted
  }

  predicate WorkerEnabled(s: Sys, w: nat, step: WorkerStep) {
    && w < |s.workers|
    && s.workers[w].c < |s.phases| == |s.q.procs|
    && Running(s.phases[s.workers[w].c])
    && (if step.CancelStep?
        then s.phases[s.workers[w].c] == Stopping && s.workers[w].pc != Halted
        else s.workers[w].pc == At(step))
    && (step.PopStep? ==> s.q.main != [])
  }

  /** Where `_handle` goes with a decoded envelope, before any await. */
  function Dispatch(raw: Envelope): Pc {
    if raw.Deliverable() then Locking else Burying
  }

  function Stamped(s: Sys, raw: Envelope): Envelope {
    raw.(startedAt := s.now)
  }

  predicate LockFree(s: Sys, k: LockKey) {
    k !in s.locks || s.locks[k].until <= s.now
  }

  /** The acquire script refuses: done, or being processed. */
  predicate Taken(s: Sys, m: string) {
    || (m in s.dones && s.now < s.dones[m])
    || (m in s.keys && s.now < s.keys[m].until)
  }

  function Conv(s: Sys, k: LockKey): seq<nat> {
    Lookup(s.conv, k, [])
  }

  /** The list operation of a worker step. */
  function WorkerOp(s: Sys, w: nat, step: WorkerStep): Op
    requires w < |s.workers|
  {
    var me := s.workers[w];
    match step
    case PopStep(f) => if f == Dropped then Skip else Pop(me.c)
    case StampStep(f) => if f == Dropped || !me.raw.parses then Skip else Stamp(me.c, me.raw, s.now)
    case BuryStep(f) => if f == Dropped then Skip else Bury(me.c, me.raw)
    case YieldStep(f) => if f == Dropped then Skip else GiveBack(me.c, me.raw)
    case AckStep(f) => if f == Dropped then Skip else Ack(me.c, me.raw)
    case RetryStep(f) => if f == Dropped then Skip else Retry(me.c, me.raw, s.cfg.maxAttempts)
    case _ => Skip
  }

  /** Where cancellation at an await leads: the finally blocks still run. */
  function CancelledWorker(me: Worker): Worker {
    match me.pc
    case Acquiring => me.(pc := Unlocking, out := Cancelled, skip := false)
    case CancellingTimer => me.(pc := Unlocking, out := Cancelled, skip := false)
    case Reading => me.(pc := Releasing, out := Cancelled)
    case Working => me.(pc := Releasing, out := Cancelled)
    case Marking => me.(pc := Releasing, out := Cancelled)
    case Finishing => me.(pc := Unlocking, out := Cancelled, skip := false)
    case Releasing => me.(pc := Unlocking, out := Cancelled, skip := false)
    case _ => me.(pc := Halted)
  }

  function WorkerAfter(s: Sys, w: nat, step: WorkerStep): Worker
    requires WorkerEnabled(s, w, step)
  {
    var me := s.workers[w];
    match step
    case PopStep(f) => if f == NoFault then me.(pc := Claiming, raw := s.q.main[|s.q.main| - 1]) else me
    case StampStep(f) =>
      var raw := if f == NoFault && me.raw.parses && me.raw in s.q.procs[me.c] then Stamped(s, me.raw) else me.raw;
      me.(pc := Dispatch(raw), raw := raw)
    case LockStep(f) =>
      if f != NoFault then me.(pc := Acquiring, token := None)
      else if LockFree(s, KeyOf(me.raw.inbound)) then
        me.(pc := Acquiring, token := Some(Lease(s.nextToken, s.now + s.cfg.lockTtl)))
      else me.(pc := Yielding)
    case BuryStep(_) => me.(pc := Idle)
    case YieldStep(_) => me.(pc := Idle)
    case AcquireStep(f) =>
      if f == NoFault && Taken(s, DedupKey(me.raw.inbound))
      then me.(pc := Unlocking, out := Returned, skip := true)
      else me.(pc := CancellingTimer)
    case TimerStep => me.(pc := Reading)
    case ReadStep(ok) =>
      if ok then me.(pc := Working, local := Conv(s, KeyOf(me.raw.inbound)))
      else me.(pc := Releasing, out := Raised)
    case SaveStep(f) =>
      if f == NoFault then me.(local := me.local + [s.h.nextSave]) else me.(pc := Releasing, out := Raised)
    case RaiseStep => me.(pc := Releasing, out := Raised)
    case SendStep(r) =>
      (match r
       case Delivered => me.(pc := Marking, sent := true)
       case Refused => me.(pc := Releasing, out := Returned)
       case SendError => me.(pc := Releasing, out := Raised))
    case NoReplyStep => me.(pc := Marking, sent := false)
    case MarkStep(_) => me.(pc := Finishing)
    case FinishStep(ok) => me.(pc := Unlocking, out := if ok then Returned else Raised, skip := false)
    case ReleaseStep(_) => me.(pc := Unlocking, skip := false)
    case UnlockStep(_) =>
      me.(pc := match me.out case Returned => Acking case Raised => Retrying case Cancelled => Halted)
    case AckStep(_) => me.(pc := Idle)
    case RetryStep(_) => me.(pc := Idle)
    case CancelStep => CancelledWorker(me)
  }

  function LocksAfter(s: Sys, w: nat, step: WorkerStep): map<LockKey, Lease>
    requires w < |s.workers|
  {
    var me := s.workers[w];
    var k := KeyOf(me.raw.inbound);
    match step
    case LockStep(f) =>
      if f != Dropped && LockFree(s, k) then s.locks[k := Lease(s.nextToken, s.now + s.cfg.lockTtl)] else s.locks
    case UnlockStep(f) =>
      if f != Dropped && me.token.Some? && !LockFree(s, k) && s.locks[k].token == me.token.value.token
      then s.locks - {k} else s.locks
    case _ => s.locks
  }

  function KeysAfter(s: Sys, w: nat, step: WorkerStep): map<string, Hold>
    requires w < |s.workers|
  {
    var me := s.workers[w];
    var m := DedupKey(me.raw.inbound);
    match step
    case AcquireStep(f) =>
      if f != Dropped && !Taken(s, m) then s.keys[m := Hold(me.raw.id, s.now + s.cfg.dedupTtl)] else s.keys
    case MarkStep(f) => if f != Dropped then s.keys - {m} else s.keys
    case ReleaseStep(f) => if f != Dropped then s.keys - {m} else s.keys
    case _ => s.keys
  }

  function DonesAfter(s: Sys, w: nat, step: WorkerStep): map<string, nat>
    requires w < |s.workers|
  {
    if step.MarkStep? && step.f != Dropped
    then s.dones[DedupKey(s.workers[w].raw.inbound) := s.now + DONE_TTL]
    else s.dones
  }

  /** The conversation state a save writes: the worker's own copy plus its change. */
  function ConvAfter(s: Sys, w: nat, step: WorkerStep): map<LockKey, seq<nat>>
    requires w < |s.workers|
  {
    var me := s.workers[w];
    if step.SaveStep? && step.f != Dropped
    then s.conv[KeyOf(me.raw.inbound) := me.local + [s.h.nextSave]]
    else s.conv
  }

  function HistoryAfter(s: Sys, w: nat, step: WorkerStep): History
    requires w < |s.workers|
  {
    var me := s.workers[w];
    var m := DedupKey(me.raw.inbound);
    var k := KeyOf(me.raw.inbound);
    var broken := s.h.breaks[m := Lookup(s.h.breaks, m, 0) + 1];
    match step
    case SaveStep(f) =>
      if f == Dropped then s.h
      else s.h.(saves := s.h.saves[k := Lookup(s.h.saves, k, []) + [s.h.nextSave]], nextSave := s.h.nextSave + 1)
    case SendStep(r) =>
      (match r
       case Delivered => s.h.(sends := s.h.sends[m := Lookup(s.h.sends, m, 0) + 1])
       case Refused => s.h.(processed := s.h.processed + {m})
       case SendError => s.h)
    case MarkStep(f) =>
      s.h.(processed := s.h.processed + {m}, breaks := if f == Dropped && me.sent then broken else s.h.breaks)
    case CancelStep =>
      if me.pc == Marking && me.sent then s.h.(breaks := broken) else s.h
    case _ => s.h
  }

  function PendsAfter(s: Sys, w: nat, step: WorkerStep): seq<set<Envelope>>
    requires w < |s.workers|
  {
    var me := s.workers[w];
    if step.AckStep? && me.c < |s.pends|
    then s.pends[me.c := if step.f == NoFault then s.pends[me.c] - {me.raw} else s.pends[me.c] + {me.raw}]
    else s.pends
  }

  function WorkerNext(s: Sys, w: nat, step: WorkerStep): Sys
    requires WorkerEnabled(s, w, step)
  {
    s.(q := Apply(s.q, WorkerOp(s, w, step)),
       workers := s.workers[w := WorkerAfter(s, w, step)],
       locks := LocksAfter(s, w, step),
       keys := KeysAfter(s, w, step),
       dones := DonesAfter(s, w, step),
       conv := ConvAfter(s, w, step),
       pends := PendsAfter(s, w, step),
       nextToken := if step.LockStep? then s.nextToken + 1 else s.nextToken,
       h := HistoryAfter(s, w, step))
  }

  // ---------------------------------------------------------------------
  // Steps of a consumer process
  // ---------------------------------------------------------------------

  datatype ConsumerStep =
    | Spawn
    | Crash
    | BeginStop
    | CancelMaint
    | Touch(f: Fault)
    | Suspect(owner: nat)
    | Snapshot(f: Fault)
    | Clear(f: Fault)
    | Expose(f: Fault)
    | Flush(raw: Envelope, f: Fault)
    | FinishStop(f: Fault)

  ghost predicate AllHalted(s: Sys, c: nat) {
    forall w :: 0 <= w < |s.workers| && s.workers[w].c == c ==> s.workers[w].pc == Halted
  }

  /** `_recover_proc_key` releases a dedup key only for an id it can locate. */
  predicate NeedsRelease(raw: Envelope) {
    raw.parses && raw.inbound.msgid != "" && raw.adapterKnown
  }

  ghost predicate ConsumerEnabled(s: Sys, c: nat, step: ConsumerStep) {
    && c < |s.phases| == |s.q.procs| == |s.beats| == |s.maints| == |s.pends|
    && s.phases[c] != Gone
    && match step
       case Spawn => s.phases[c] == Live
       case Crash => true
       case BeginStop => s.phases[c] == Live
       case CancelMaint => s.phases[c] == Stopping && AllHalted(s, c)
       case Touch(_) => Running(s.phases[c]) && s.maints[c] == MIdle
       case Suspect(owner) =>
         && owner < |s.phases|
         && s.maints[c] == MIdle
         && (if owner == c then s.phases[c] == Closing else Running(s.phases[c]) && s.beats[owner] <= s.now)
       case Snapshot(_) => s.maints[c].MSuspect? && s.maints[c].owner < |s.q.procs|
       case Clear(_) => s.maints[c].MClear? && s.maints[c].next < |s.maints[c].items|
       case Expose(_) =>
         s.maints[c].MClear? && s.maints[c].next >= |s.maints[c].items| && s.maints[c].owner < |s.q.procs|
       case Flush(raw, _) => Running(s.phases[c]) && s.maints[c] == MIdle && raw in s.pends[c]
       case FinishStop(_) => s.phases[c] == Closing && s.maints[c] == MIdle
  }

  function ConsumerOp(s: Sys, c: nat, step: ConsumerStep): Op
    requires c < |s.maints|
  {
    match step
    case Expose(f) =>
      if f != Dropped && s.maints[c].MClear? && s.maints[c].ready
      then Requeue(s.maints[c].owner, s.maints[c].items) else Skip
    case Flush(raw, f) => if f == Dropped then Skip else Ack(c, raw)
    case _ => Skip
  }

  function MaintAfter(s: Sys, c: nat, step: ConsumerStep): Maint
    requires c < |s.maints|
    requires step.Snapshot? ==> s.maints[c].MSuspect? && s.maints[c].owner < |s.q.procs|
    requires step.Clear? ==> s.maints[c].MClear? && s.maints[c].next < |s.maints[c].items|
  {
    match step
    case Suspect(owner) => MSuspect(owner)
    case Snapshot(f) =>
      var items := s.q.procs[s.maints[c].owner];
      if f != NoFault || items == [] then MIdle else MClear(s.maints[c].owner, items, 0, true, {})
    case Clear(f) =>
      var it := s.maints[c].items[s.maints[c].next];
      s.maints[c].(next := s.maints[c].next + 1,
                   ready := s.maints[c].ready && (NeedsRelease(it) ==> f == NoFault),
                   cleared := if NeedsRelease(it) && f == NoFault
                              then s.maints[c].cleared + {it.inbound.msgid} else s.maints[c].cleared)
    case Expose(_) => MIdle
    case CancelMaint => MIdle
    case _ => s.maints[c]
  }

  function KeysCleared(s: Sys, c: nat, step: ConsumerStep): map<string, Hold>
    requires c < |s.maints|
    requires step.Clear? ==> s.maints[c].MClear? && s.maints[c].next < |s.maints[c].items|
  {
    if step.Clear? && step.f != Dropped && NeedsRelease(s.maints[c].items[s.maints[c].next])
    then s.keys - {s.maints[c].items[s.maints[c].next].inbound.msgid}
    else s.keys
  }

  const BLANK := Envelope(0, false, false, false, Inbound("", "", "", ""), 0, 0)

  function NewWorker(c: nat): Worker {
    Worker(c, Idle, BLANK, None, [], false, Returned, false)
  }

  function ConsumerNext(s: Sys, c: nat, step: ConsumerStep): Sys
    requires ConsumerEnabled(s, c, step)
  {
    s.(q := Apply(s.q, ConsumerOp(s, c, step)),
       maints := s.maints[c := MaintAfter(s, c, step)],
       keys := KeysCleared(s, c, step),
       phases := (match step
                  case Crash => s.phases[c := Gone]
                  case BeginStop => s.phases[c := Stopping]
                  case CancelMaint => s.phases[c := Closing]
                  case FinishStop(_) => s.phases[c := Gone]
                  case _ => s.phases),
       beats := (match step
                 case Touch(f) => if f == Dropped then s.beats else s.beats[c := s.now + HEARTBEAT_TTL]
                 case FinishStop(f) => if f == Dropped then s.beats else s.beats[c := 0]
                 case _ => s.beats),
       pends := (match step
                 case Flush(raw, f) => if f == NoFault then s.pends[c := s.pends[c] - {raw}] else s.pends
                 case _ => s.pends),
       workers := if step.Spawn? then s.workers + [NewWorker(c)] else s.workers)
  }

  // ---------------------------------------------------------------------
  // The system
  // ---------------------------------------------------------------------

  datatype Action =
    | Tick
    | Start
    | Enqueue(inbound: Inbound, parses: bool, adapterKnown: bool, rebuilds: bool, f: Fault)
    | OfWorker(w: nat, wstep: WorkerStep)
    | OfConsumer(c: nat, cstep: ConsumerStep)

  ghost predicate Enabled(s: Sys, a: Action) {
    match a
    case Tick => true
    case Start => true
    case Enqueue(_, _, _, _, _) => true
    case OfWorker(w, step) => WorkerEnabled(s, w, step)
    case OfConsumer(c, step) => ConsumerEnabled(s, c, step)
  }

  /** The list operation an action performs. */
  function OpOf(s: Sys, a: Action): Op {
    match a
    case Tick => Skip
    case Start => Join
    case Enqueue(inbound, p, k, r, f) => if f == Dropped then Skip else Push(inbound, p, k, r)
    case OfWorker(w, step) => if w < |s.workers| then WorkerOp(s, w, step) else Skip
    case OfConsumer(c, step) => if c < |s.maints| then ConsumerOp(s, c, step) else Skip
  }

  function Next(s: Sys, a: Action): Sys
    requires Enabled(s, a)
  {
    match a
    case Tick => s.(now := s.now + 1)
    case Start =>
      // start(): the heartbeat is written before any worker exists.
      s.(q := Apply(s.q, Join),
         phases := s.phases + [Live],
         beats := s.beats + [s.now + HEARTBEAT_TTL],
         maints := s.maints + [MIdle],
         pends := s.pends + [{}])
    case Enqueue(inbound, p, k, r, f) =>
      s.(q := Apply(s.q, if f == Dropped then Skip else Push(inbound, p, k, r)))
    case OfWorker(w, step) => WorkerNext(s, w, step)
    case OfConsumer(c, step) => ConsumerNext(s, c, step)
  }

  function Init(cfg: Config): Sys {
    Sys(cfg, 0, EMPTY, [], [], [], [], [], map[], map[], map[], map[], 0, History({}, map[], map[], map[], 0))
  }

  ghost predicate Execution(s: Sys, acts: seq<Action>)
    decreases |acts|
  {
    acts == [] || (Enabled(s, acts[0]) && Execution(Next(s, acts[0]), acts[1..]))
  }

  function Exec(s: Sys, acts: seq<Action>): Sys
    requires Execution(s, acts)
    decreases |acts|
  {
    if acts == [] then s else Exec(Next(s, acts[0]), acts[1..])
  }

  /**
   * Every state of an execution satisfies `state` and every action taken
   * satisfies `action` in the state it is taken in.
   */
  ghost predicate Along(s: Sys, acts: seq<Action>, state: Sys -> bool, action: (Sys, Action) -> bool)
    requires Execution(s, acts)
    decreases |acts|
  {
    && state(s)
    && (acts != [] ==> action(s, acts[0]) && Along(Next(s, acts[0]), acts[1..], state, action))
  }

  predicate AnyAction(s: Sys, a: Action) {
    true
  }

  /** The list operations of an execution, in order. */
  function Ops(s: Sys, acts: seq<Action>): seq<Op>
    requires Execution(s, acts)
    decreases |acts|
  {
    if acts == [] then [] else [OpOf(s, acts[0])] + Ops(Next(s, acts[0]), acts[1..])
  }

  lemma StepIsOp(s: Sys, a: Action)
    requires Enabled(s, a)
    ensures Legal(s.q, OpOf(s, a))
    ensures Next(s, a).q == Apply(s.q, OpOf(s, a))
    ensures Next(s, a).cfg == s.cfg
    ensures SameLimit(OpOf(s, a), s.cfg.maxAttempts)
  {
  }

  /** The lists of an execution evolve by its list operations alone. */
  lemma {:induction false} ExecutionIsRun(s: Sys, acts: seq<Action>)
    requires Execution(s, acts)
    ensures LegalRun(s.q, Ops(s, acts))
    ensures Exec(s, acts).q == Run(s.q, Ops(s, acts))
    ensures Exec(s, acts).cfg == s.cfg
    ensures forall op :: op in Ops(s, acts) ==> SameLimit(op, s.cfg.maxAttempts)
    decreases |acts|
  {
    if acts != [] {
      StepIsOp(s, acts[0]);
      ExecutionIsRun(Next(s, acts[0]), acts[1..]);
      assert Ops(s, acts)[1..] == Ops(Next(s, acts[0]), acts[1..]);
    }
  }

  /**
   * Every execution of the protocol, with any faults, crashes and mistaken
   * recoveries, conserves its envelopes and keeps the retry budget.
   */
  lemma ProtocolConserves(cfg: Config, acts: seq<Action>)
    requires Execution(Init(cfg), acts) && cfg.maxAttempts > 0
    ensures Conserved(Exec(Init(cfg), acts).q)
    ensures Budgeted(Exec(Init(cfg), acts).q, cfg.maxAttempts)
    ensures Sum(Exec(Init(cfg), acts).q.fails) <= |Exec(Init(cfg), acts).q.log| * cfg.maxAttempts
  {
    ExecutionIsRun(Init(cfg), acts);
    Conservation(EMPTY, Ops(Init(cfg), acts));
    RetryBudget(Ops(Init(cfg), acts), cfg.maxAttempts);
  }
}
