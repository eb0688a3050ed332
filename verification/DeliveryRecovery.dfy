/**
 * Crash recovery: `_recover_stale_consumers`, `_recover_proc_key` and the
 * consumer heartbeats (app/services/message_queue.py).
 */
module DeliveryRecovery {
  import opened Wrappers
  import opened QueueState
  import opened Delivery

  // ---------------------------------------------------------------------
  // Shape of the consumer tables
  // ---------------------------------------------------------------------

  ghost predicate Shape(s: Sys) {
    && |s.q.procs| == |s.phases| == |s.beats| == |s.maints| == |s.pends|
    && (forall w :: 0 <= w < |s.workers| ==> s.workers[w].c < |s.phases|)
    && (forall c :: 0 <= c < |s.maints| && !s.maints[c].MIdle? ==> s.maints[c].owner < |s.phases|)
  }

  lemma ShapeStep(s: Sys, a: Action)
    requires Enabled(s, a) && Shape(s)
    ensures Shape(Next(s, a))
  {
    StepIsOp(s, a);
    assert |Apply(s.q, OpOf(s, a)).procs| == |s.q.procs| + (if a.Start? then 1 else 0);
    if a.OfWorker? {
      assert WorkerAfter(s, a.w, a.wstep).c == s.workers[a.w].c;
    }
  }

  // ---------------------------------------------------------------------
  // Recovery exposes only deliveries whose dedup key was confirmed absent
  // ---------------------------------------------------------------------

  /** While every release so far was confirmed, all items passed over are cleared. */
  ghost predicate ClearsOk(m: Maint) {
    m.MClear? ==>
      && m.next <= |m.items|
      && (m.ready ==> forall j :: 0 <= j < m.next && NeedsRelease(m.items[j]) ==>
            m.items[j].inbound.msgid in m.cleared)
  }

  ghost predicate RecoveryOk(s: Sys) {
    forall c :: 0 <= c < |s.maints| ==> ClearsOk(s.maints[c])
  }

  lemma RecoveryStep(s: Sys, a: Action)
    requires Enabled(s, a) && RecoveryOk(s)
    ensures RecoveryOk(Next(s, a))
  {
    if a.OfConsumer? {
      assert ClearsOk(s.maints[a.c]);
      assert ClearsOk(MaintAfter(s, a.c, a.cstep));
    }
  }

  lemma {:induction false} RecoveryAlways(s: Sys, acts: seq<Action>)
    requires Execution(s, acts) && RecoveryOk(s)
    ensures RecoveryOk(Exec(s, acts))
    decreases |acts|
  {
    if acts != [] {
      RecoveryStep(s, acts[0]);
      RecoveryAlways(Next(s, acts[0]), acts[1..]);
    }
  }

  /**
   * One item of a recovery: it has a key to release exactly when it decodes, has an id and its adapter is known; that
   * key is then deleted unless the command was lost, and only an answered command keeps the recovery going. No other
   * key is touched.
   */
  lemma ClearMeans(s: Sys, c: nat, f: Fault)
    requires ConsumerEnabled(s, c, Clear(f))
    ensures var it := s.maints[c].items[s.maints[c].next];
      var s' := ConsumerNext(s, c, Clear(f));
      var keyed := it.parses && it.adapterKnown && it.inbound.msgid != "";
      && s'.maints[c].MClear? && s'.maints[c].next == s.maints[c].next + 1
      && s'.keys == (if keyed && f != Dropped then s.keys - {it.inbound.msgid} else s.keys)
      && (s'.maints[c].ready <==> s.maints[c].ready && (keyed ==> f == NoFault))
      && s'.q == s.q
  {
  }

  /** An id is cleared only by a step after which its processing key is absent. */
  lemma NewlyCleared(s: Sys, a: Action, c: nat, msgid: string)
    requires Enabled(s, a) && c < |Next(s, a).maints|
    requires Next(s, a).maints[c].MClear? && msgid in Next(s, a).maints[c].cleared
    requires !(c < |s.maints| && s.maints[c].MClear? && msgid in s.maints[c].cleared)
    ensures msgid !in Next(s, a).keys
  {
  }

  /** The first `n` actions of an execution are one. */
  lemma {:induction false} ExecPrefix(s: Sys, acts: seq<Action>, n: nat)
    requires Execution(s, acts) && n <= |acts|
    ensures Execution(s, acts[..n])
    ensures n == |acts| ==> Exec(s, acts[..n]) == Exec(s, acts)
    ensures n < |acts| ==>
      && Execution(s, acts[..n + 1])
      && Enabled(Exec(s, acts[..n]), acts[n]) && Exec(s, acts[..n + 1]) == Next(Exec(s, acts[..n]), acts[n])
    decreases |acts|
  {
    assert acts[..|acts|] == acts;
    if acts != [] {
      if n == 0 {
        assert acts[..1][1..] == [];
      } else {
        ExecPrefix(Next(s, acts[0]), acts[1..], n - 1);
        assert acts[..n][1..] == acts[1..][..n - 1];
        if n < |acts| {
          assert acts[..n + 1][1..] == acts[1..][..n];
        }
      }
    }
  }

  /** The consumer is clearing this snapshot of this owner's list. */
  predicate Snapshotted(s: Sys, c: nat, owner: nat, items: seq<Envelope>) {
    c < |s.maints| && s.maints[c].MClear? && s.maints[c].owner == owner && s.maints[c].items == items
  }

  /** After `n` actions the key was absent, and the same snapshot has been worked on from then on. */
  ghost predicate WasAbsent(s: Sys, acts: seq<Action>, n: nat, c: nat, owner: nat, items: seq<Envelope>, msgid: string) {
    && n <= |acts| && Execution(s, acts[..n]) && msgid !in Exec(s, acts[..n]).keys
    && (forall k | n <= k <= |acts| :: Execution(s, acts[..k]) && Snapshotted(Exec(s, acts[..k]), c, owner, items))
  }

  /**
   * What clearing means: the dedup key of a cleared id was absent at some moment after the snapshot was taken and
   * while it was still being worked on.
   */
  lemma {:induction false} ClearedWasAbsent(s: Sys, acts: seq<Action>, c: nat, msgid: string)
    requires Execution(s, acts) && (forall d :: 0 <= d < |s.maints| ==> !s.maints[d].MClear?)
    requires var t := Exec(s, acts); c < |t.maints| && t.maints[c].MClear? && msgid in t.maints[c].cleared
    ensures exists n: nat :: WasAbsent(s, acts, n, c, Exec(s, acts).maints[c].owner, Exec(s, acts).maints[c].items, msgid)
    decreases |acts|
  {
    if acts != [] {
      var n := |acts| - 1;
      ExecPrefix(s, acts, n);
      ExecPrefix(s, acts, n + 1);
      assert acts[..n + 1] == acts;
      var before, last := Exec(s, acts[..n]), acts[n];
      var owner, items := Exec(s, acts).maints[c].owner, Exec(s, acts).maints[c].items;
      if c < |before.maints| && before.maints[c].MClear? && msgid in before.maints[c].cleared {
        SnapshotStays(before, last, c);
        ClearedWasAbsent(s, acts[..n], c, msgid);
        var k: nat :| WasAbsent(s, acts[..n], k, c, owner, items, msgid);
        forall j | k <= j <= n
          ensures acts[..n][..j] == acts[..j]
        {
        }
        assert WasAbsent(s, acts, k, c, owner, items, msgid);
      } else {
        NewlyCleared(before, last, c, msgid);
        assert WasAbsent(s, acts, n + 1, c, owner, items, msgid);
      }
    }
  }

  lemma SnapshotStays(s: Sys, a: Action, c: nat)
    requires Enabled(s, a) && c < |s.maints| && s.maints[c].MClear?
    requires c < |Next(s, a).maints| && Next(s, a).maints[c].MClear?
    ensures Snapshotted(Next(s, a), c, s.maints[c].owner, s.maints[c].items)
  {
  }

  /**
   * Recovery safety, in every reachable state: an expose step moves only items
   * of its snapshot that are still in the owner's list, each with its dedup key
   * confirmed absent since the snapshot; an unconfirmed release moves nothing.
   */
  lemma ExposedWereCleared(cfg: Config, acts: seq<Action>, c: nat, f: Fault)
    requires Execution(Init(cfg), acts)
    requires ConsumerEnabled(Exec(Init(cfg), acts), c, Expose(f))
    ensures var s := Exec(Init(cfg), acts); var s' := ConsumerNext(s, c, Expose(f)); var m := s.maints[c];
      && (!m.ready ==> s'.q == s.q)
      && (forall e :: e in s'.q.main && e !in s.q.main ==>
            && e in m.items && e in s.q.procs[m.owner]
            && (NeedsRelease(e) ==> e.inbound.msgid in m.cleared))
      && (forall d :: 0 <= d < |s.q.procs| && d != m.owner ==> s'.q.procs[d] == s.q.procs[d])
  {
    RecoveryAlways(Init(cfg), acts);
    var s := Exec(Init(cfg), acts);
    var m := s.maints[c];
    assert ClearsOk(m);
    RequeueMembers(s.q.procs[m.owner], s.q.main, m.items);
    assert forall e :: e in m.items ==> exists j :: 0 <= j < |m.items| && m.items[j] == e;
  }

  // ---------------------------------------------------------------------
  // Heartbeats
  // ---------------------------------------------------------------------

  /** A serving or stopping consumer still has its heartbeat. */
  ghost predicate BeatsTimely(s: Sys) {
    forall c :: 0 <= c < |s.phases| && c < |s.beats| && Running(s.phases[c]) ==> s.now < s.beats[c]
  }

  /** A recovery in progress is about a consumer that has stopped running. */
  ghost predicate SuspectsQuiet(s: Sys)
    requires Shape(s)
  {
    forall c :: 0 <= c < |s.maints| && !s.maints[c].MIdle? ==> !Running(s.phases[s.maints[c].owner])
  }

  lemma SuspectsStep(s: Sys, a: Action)
    requires Enabled(s, a) && Shape(s) && Shape(Next(s, a)) && BeatsTimely(s) && SuspectsQuiet(s)
    ensures SuspectsQuiet(Next(s, a))
  {
    var s' := Next(s, a);
    forall c | 0 <= c < |s'.maints| && !s'.maints[c].MIdle? ensures !Running(s'.phases[s'.maints[c].owner]) {
      var owner := s'.maints[c].owner;
      assert c < |s.maints| && owner < |s.phases|;
      assert !Running(s.phases[owner]);
    }
  }

  /** The list operation is one of consumer `d`'s own. */
  predicate OwnAction(s: Sys, a: Action, d: nat) {
    || (a.OfWorker? && a.w < |s.workers| && s.workers[a.w].c == d)
    || (a.OfConsumer? && a.c == d)
  }

  /** Consumer `d` has its heartbeat from its start to the end of its stop. */
  ghost predicate Beats(s: Sys, d: nat) {
    d < |s.phases| && d < |s.beats| && s.phases[d] != Gone ==> s.now < s.beats[d]
  }

  ghost function BeatsOf(d: nat): Sys -> bool {
    s => Beats(s, d)
  }

  /** No other consumer is recovering `d`'s list. */
  ghost predicate Unsuspected(s: Sys, d: nat) {
    && Shape(s)
    && (d < |s.phases| && s.phases[d] != Gone ==>
          forall c | 0 <= c < |s.maints| && c != d && !s.maints[c].MIdle? :: s.maints[c].owner != d)
  }

  lemma UnsuspectedStep(s: Sys, a: Action, d: nat)
    requires Enabled(s, a) && Unsuspected(s, d) && Beats(s, d)
    ensures Unsuspected(Next(s, a), d)
  {
    ShapeStep(s, a);
    var s' := Next(s, a);
    if d < |s'.phases| && s'.phases[d] != Gone {
      forall c | 0 <= c < |s'.maints| && c != d && !s'.maints[c].MIdle?
        ensures s'.maints[c].owner != d
      {
        assert c < |s.maints|;
        if a.OfConsumer? && a.c == c && a.cstep.Suspect? {
          assert s.beats[a.cstep.owner] <= s.now || a.cstep.owner == c;
        } else {
          assert !s.maints[c].MIdle? && s'.maints[c].owner == s.maints[c].owner;
        }
      }
    }
  }

  lemma {:induction false} UnsuspectedAlways(s: Sys, acts: seq<Action>, d: nat)
    requires Execution(s, acts) && Unsuspected(s, d) && Along(s, acts, BeatsOf(d), AnyAction)
    ensures Unsuspected(Exec(s, acts), d)
    decreases |acts|
  {
    if acts != [] {
      assert BeatsOf(d)(s);
      UnsuspectedStep(s, acts[0], d);
      UnsuspectedAlways(Next(s, acts[0]), acts[1..], d);
    }
  }

  /**
   * Live consumers are never robbed: as long as a consumer has its heartbeat, no action of another process changes
   * its processing list, from its start until its stop has requeued the list itself and deleted the heartbeat.
   */
  lemma NeverRobbed(cfg: Config, acts: seq<Action>, a: Action, d: nat)
    requires Execution(Init(cfg), acts) && Along(Init(cfg), acts, BeatsOf(d), AnyAction)
    requires Enabled(Exec(Init(cfg), acts), a) && d < |Exec(Init(cfg), acts).phases|
    requires Exec(Init(cfg), acts).phases[d] != Gone && !OwnAction(Exec(Init(cfg), acts), a, d)
    ensures d < |Exec(Init(cfg), acts).q.procs| <= |Next(Exec(Init(cfg), acts), a).q.procs|
    ensures Next(Exec(Init(cfg), acts), a).q.procs[d] == Exec(Init(cfg), acts).q.procs[d]
  {
    UnsuspectedAlways(Init(cfg), acts, d);
    var s := Exec(Init(cfg), acts);
    StepIsOp(s, a);
    if a.OfConsumer? && a.cstep.Expose? {
      assert s.maints[a.c].owner != d;
    }
  }
}
