/**
 * The list scripts and the bookkeeping of `RedisMessageQueue` as the source runs
 * them, step by step on the stored lists (app/services/message_queue.py). Each
 * method is tied to the operation `Delivery` uses for it, so the results on
 * operations are results about these scripts.
 */
module RedisQueue {
  import opened Wrappers
  import opened QueueState
  import opened Delivery

  lemma {:induction false} LremSplit(l: seq<Envelope>, v: Envelope, i: nat)
    requires i < |l| && l[i] == v && v !in l[..i]
    ensures Lrem(l, v) == l[..i] + l[i + 1..]
  {
    if i > 0 {
      assert l[0] in l[..i];
      assert l[1..][..i - 1] == l[..i][1..];
      LremSplit(l[1..], v, i - 1);
      assert l[1..][..i - 1] + l[1..][i..] == (l[..i] + l[i + 1..])[1..];
    }
  }

  lemma {:induction false} LsetSplit(l: seq<Envelope>, v: Envelope, w: Envelope, i: nat)
    requires i < |l| && l[i] == v && v !in l[..i]
    ensures Lset(l, v, w) == l[i := w]
  {
    if i > 0 {
      assert l[0] in l[..i];
      assert l[1..][..i - 1] == l[..i][1..];
      LsetSplit(l[1..], v, w, i - 1);
      assert l[1..][i - 1 := w] == l[i := w][1..];
    }
  }

  lemma {:induction false} LsetAbsent(l: seq<Envelope>, v: Envelope, w: Envelope)
    requires v !in l
    ensures Lset(l, v, w) == l && Lrem(l, v) == l
  {
    if l != [] {
      LsetAbsent(l[1..], v, w);
    }
  }

  lemma {:induction false} RequeueLast(src: seq<Envelope>, dst: seq<Envelope>, items: seq<Envelope>, n: nat)
    requires n < |items|
    ensures RequeueLists(src, dst, items[..n + 1]) ==
      var (s, d) := RequeueLists(src, dst, items[..n]);
      if items[n] in s then (Lrem(s, items[n]), [items[n]] + d) else (s, d)
    decreases n
  {
    assert items[..n + 1][1..] == items[1..][..n];
    if n > 0 {
      assert items[..n][1..] == items[1..][..n - 1];
      if items[0] in src {
        RequeueLast(Lrem(src, items[0]), [items[0]] + dst, items[1..], n - 1);
      } else {
        RequeueLast(src, dst, items[1..], n - 1);
      }
    }
  }

  /** LREM key 1 v, scanning from the head. */
  method RemoveFirst(l: seq<Envelope>, v: Envelope) returns (rest: seq<Envelope>, removed: bool)
    ensures rest == Lrem(l, v)
    ensures removed <==> v in l
  {
    var i := 0;
    while i < |l| && l[i] != v
      invariant i <= |l| && v !in l[..i]
    {
      i := i + 1;
    }
    if i < |l| {
      LremSplit(l, v, i);
      rest, removed := l[..i] + l[i + 1..], true;
    } else {
      assert l[..i] == l;
      LsetAbsent(l, v, v);
      rest, removed := l, false;
    }
  }

  /** The ids `_recover_proc_key` asks the dedup store to release. */
  ghost function ReleaseIds(items: seq<Envelope>): set<string> {
    set e | e in items && NeedsRelease(e) :: e.inbound.msgid
  }

  /** Every release the recovery of `items` needs is answered. */
  ghost predicate AllHeard(items: seq<Envelope>, unheard: set<string>) {
    forall e :: e in items && NeedsRelease(e) ==> e.inbound.msgid !in unheard
  }

  class RedisMessageQueue {
    const consumer: nat
    const maxAttempts: nat
    var main: seq<Envelope>
    var procs: seq<seq<Envelope>>
    var dead: seq<Envelope>
    var placeholders: seq<Inbound>
    var processing: set<string>
    var pendingAcks: set<Envelope>
    ghost var log: seq<Envelope>
    ghost var acked: seq<Envelope>
    ghost var fails: seq<nat>

    ghost function State(): Queues
      reads this
    {
      Queues(main, procs, dead, log, acked, fails)
    }

    ghost predicate Valid()
      reads this
    {
      consumer < |procs|
    }

    constructor (consumer: nat, maxAttempts: nat)
      ensures Valid() && this.consumer == consumer && this.maxAttempts == maxAttempts
      ensures State() == EMPTY.(procs := seq(consumer + 1, i => []))
      ensures processing == {} && pendingAcks == {} && placeholders == []
    {
      this.consumer, this.maxAttempts := consumer, maxAttempts;
      main, procs, dead, placeholders := [], seq(consumer + 1, i => []), [], [];
      processing, pendingAcks := {}, {};
      log, acked, fails := [], [], [];
    }

    /**
     * `enqueue`, with `id` a fresh identifier and `f` the end of its one LPUSH.
     * A message that cannot be serialized leaves a placeholder in the
     * dead-letter list, which no worker reads; it never was an envelope.
     */
    method Enqueue(inbound: Inbound, adapterKnown: bool, rebuilds: bool, serializes: bool, id: nat, f: Fault)
      returns (ok: bool)
      requires Valid() && id == |log|
      modifies this
      ensures Valid() && processing == old(processing) && pendingAcks == old(pendingAcks)
      ensures State() == Apply(old(State()),
        if serializes && f != Dropped then Push(inbound, true, adapterKnown, rebuilds) else Skip)
      ensures placeholders == if !serializes && f != Dropped then [inbound] + old(placeholders) else old(placeholders)
      ensures ok <==> serializes && f == NoFault
    {
      if !serializes {
        PushDeadUnparseable(inbound, f);
        return false;
      }
      if f == Dropped {
        return false;
      }
      var env := Envelope(id, true, adapterKnown, rebuilds, inbound, 0, 0);
      main := [env] + main;
      log, fails := log + [env], fails + [0];
      return f == NoFault;
    }

    /** `_push_dead_unparseable`: a failing LPUSH is swallowed, and nothing is left. */
    method PushDeadUnparseable(inbound: Inbound, f: Fault)
      modifies this`placeholders
      ensures placeholders == if f == Dropped then old(placeholders) else [inbound] + old(placeholders)
    {
      if f != Dropped {
        placeholders := [inbound] + placeholders;
      }
    }

    /** BLMOVE main proc RIGHT LEFT; None is the timeout. */
    method BlMove() returns (raw: Option<Envelope>)
      requires Valid()
      modifies this
      ensures Valid() && processing == old(processing) && pendingAcks == old(pendingAcks) && placeholders == old(placeholders)
      ensures raw.None? <==> old(main) == []
      ensures raw.None? ==> State() == old(State())
      ensures raw.Some? ==>
        && State() == Apply(old(State()), Pop(consumer))
        && raw.value == old(main)[|old(main)| - 1] && raw.value == procs[consumer][0]
    {
      if main == [] {
        return None;
      }
      var last := main[|main| - 1];
      main := main[..|main| - 1];
      procs := procs[consumer := [last] + procs[consumer]];
      return Some(last);
    }

    /** The claim script: scan the own list and overwrite the first match. */
    method ClaimScript(raw: Envelope, startedAt: int) returns (replaced: bool)
      requires Valid()
      modifies this
      ensures Valid() && processing == old(processing) && pendingAcks == old(pendingAcks) && placeholders == old(placeholders)
      ensures State() == Apply(old(State()), Stamp(consumer, raw, startedAt))
      ensures replaced <==> raw in old(procs[consumer])
    {
      var items := procs[consumer];
      var i := 0;
      while i < |items|
        invariant i <= |items| && raw !in items[..i]
        invariant State() == old(State())
        invariant processing == old(processing) && pendingAcks == old(pendingAcks) && placeholders == old(placeholders)
      {
        if items[i] == raw {
          LsetSplit(items, raw, raw.(startedAt := startedAt), i);
          procs := procs[consumer := items[i := raw.(startedAt := startedAt)]];
          return true;
        }
        i := i + 1;
      }
      assert items[..i] == items;
      LsetAbsent(items, raw, raw.(startedAt := startedAt));
      assert procs[consumer := items] == procs;
      return false;
    }

    /** The requeue script for one owner: LREM then LPUSH, item by item. */
    method RequeueScript(owner: nat, items: seq<Envelope>) returns (moved: nat)
      requires Valid() && owner < |procs|
      modifies this`main, this`procs
      ensures Valid()
      ensures State() == Apply(old(State()), Requeue(owner, items))
      ensures moved == |main| - |old(main)|
    {
      moved := 0;
      assert procs[owner := procs[owner]] == procs;
      for i := 0 to |items|
        invariant |procs| == |old(procs)|
        invariant (procs[owner], main) == RequeueLists(old(procs[owner]), old(main), items[..i])
        invariant procs == old(procs)[owner := procs[owner]]
        invariant moved == |main| - |old(main)|
      {
        RequeueLast(old(procs[owner]), old(main), items, i);
        var rest, removed := RemoveFirst(procs[owner], items[i]);
        if removed {
          procs := procs[owner := rest];
          main := [items[i]] + main;
          moved := moved + 1;
        }
      }
      assert items[..|items|] == items;
    }

    /**
     * `_recover_proc_key` run without interruption. `unheard` are the ids whose
     * release the dedup store fails to confirm, `dropped` those of them whose
     * key was not deleted either.
     */
    method RecoverProcKey(owner: nat, unheard: set<string>, dropped: set<string>) returns (moved: nat)
      requires Valid() && owner < |procs| && dropped <= unheard
      modifies this
      ensures Valid() && pendingAcks == old(pendingAcks) && placeholders == old(placeholders)
      ensures processing == old(processing) - (ReleaseIds(old(procs[owner])) - dropped)
      ensures State() == Apply(old(State()),
        if AllHeard(old(procs[owner]), unheard) then Requeue(owner, old(procs[owner])) else Skip)
      ensures moved == |main| - |old(main)|
    {
      var items := procs[owner];
      if items == [] {
        assert procs[owner := []] == procs;
        return 0;
      }
      var dedupReady := true;
      for i := 0 to |items|
        invariant State() == old(State()) && pendingAcks == old(pendingAcks) && placeholders == old(placeholders)
        invariant processing == old(processing) - (ReleaseIds(items[..i]) - dropped)
        invariant dedupReady <==> AllHeard(items[..i], unheard)
      {
        assert items[..i + 1] == items[..i] + [items[i]];
        if NeedsRelease(items[i]) {
          if items[i].inbound.msgid !in dropped {
            processing := processing - {items[i].inbound.msgid};
          }
          if items[i].inbound.msgid in unheard {
            dedupReady := false;
          }
        }
      }
      assert items[..|items|] == items;
      if !dedupReady {
        return 0;
      }
      moved := RequeueScript(owner, items);
    }

    /** `_move_to`: one atomic LREM + LPUSH, or nothing when it was not applied or the delivery is gone. */
    method MoveTo(toDead: bool, source: Envelope, counted: bool, f: Fault)
      requires Valid() && (toDead && counted ==> source.attempts + 1 >= maxAttempts)
      requires !toDead && counted ==> source.attempts + 1 < maxAttempts
      modifies this
      ensures Valid() && processing == old(processing) && pendingAcks == old(pendingAcks) && placeholders == old(placeholders)
      ensures State() == Apply(old(State()),
        if f == Dropped then Skip
        else if counted then Retry(consumer, source, maxAttempts)
        else if toDead then Bury(consumer, source) else GiveBack(consumer, source))
    {
      if f == Dropped {
        return;
      }
      var rest, removed := RemoveFirst(procs[consumer], source);
      if !removed {
        return;
      }
      procs := procs[consumer := rest];
      var dest := if counted then source.(attempts := source.attempts + 1) else source;
      if toDead {
        dead := [dest] + dead;
      } else {
        main := [dest] + main;
      }
      if counted && source.id < |fails| {
        fails := fails[source.id := fails[source.id] + 1];
      }
    }

    /** What `_handle` does with a run's result: lock busy, cancelled, failed or returned. */
    method Settle(raw: Envelope, busy: bool, out: Outcome, f: Fault)
      requires Valid()
      modifies this
      ensures Valid() && processing == old(processing) && placeholders == old(placeholders)
      ensures State() == Apply(old(State()),
        if f == Dropped then Skip
        else if busy then GiveBack(consumer, raw)
        else match out
             case Cancelled => Skip
             case Raised => Retry(consumer, raw, maxAttempts)
             case Returned => Ack(consumer, raw))
      ensures pendingAcks ==
        if busy || out != Returned then old(pendingAcks)
        else if f == NoFault then old(pendingAcks) - {raw} else old(pendingAcks) + {raw}
    {
      if busy {
        MoveTo(false, raw, false, f);
        return;
      }
      match out
      case Cancelled =>
      case Raised =>
        MoveTo(!(raw.attempts + 1 < maxAttempts), raw, true, f);
      case Returned =>
        if f != Dropped {
          var rest, removed := RemoveFirst(procs[consumer], raw);
          if removed {
            procs := procs[consumer := rest];
            acked := [raw] + acked;
          }
        }
        pendingAcks := if f == NoFault then pendingAcks - {raw} else pendingAcks + {raw};
    }
  }
}
