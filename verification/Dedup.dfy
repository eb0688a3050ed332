/**
 * The two dedup stores: `InMemoryDedupStore` (app/protocols/base.py), two
 * timestamp maps swept lazily as a whole, and `RedisDedupStore`
 * (app/services/dedup_store.py), one expiring key per message. Both are used
 * with the adapters' ttl of 600 seconds.
 */
module Dedup {
  import opened Wrappers

  const TTL := 600.0

  /** Entry times of messages being processed and of messages answered. */
  datatype Memory = Memory(processing: map<string, real>, processed: map<string, real>)

  /** Expiry times of the processing and done keys. */
  datatype Keys = Keys(proc: map<string, real>, done: map<string, real>)

  datatype Kind = Acquire | MarkDone | Release

  /** One call of a store's interface; the clock never runs backwards. */
  datatype Call = Call(at: real, kind: Kind, msgid: string)

  // ---------------------------------------------------------------------
  // In memory
  // ---------------------------------------------------------------------

  /** The entries that are not older than `ttl`. */
  function Fresh(m: map<string, real>, now: real, ttl: real): map<string, real> {
    map k | k in m && !(now - m[k] > ttl) :: m[k]
  }

  function Sweep(m: Memory, now: real, ttl: real): Memory {
    Memory(Fresh(m.processing, now, ttl), Fresh(m.processed, now, ttl))
  }

  /** In the swept store: being processed, or answered less than `ttl` ago. */
  predicate Refuses(m: Memory, msgid: string, now: real, ttl: real) {
    msgid in m.processing || (msgid in m.processed && now - m.processed[msgid] < ttl)
  }

  function MemoryStep(m: Memory, c: Call): (Memory, bool) {
    if c.msgid == "" then (m, true)
    else match c.kind
      case Acquire =>
        var swept := Sweep(m, c.at, TTL);
        if Refuses(swept, c.msgid, c.at, TTL) then (swept, false)
        else (swept.(processing := swept.processing[c.msgid := c.at]), true)
      case MarkDone => (Memory(m.processing - {c.msgid}, m.processed[c.msgid := c.at]), true)
      case Release => (m.(processing := m.processing - {c.msgid}), true)
  }

  class InMemoryDedupStore {
    var processed: map<string, real>
    var processing: map<string, real>

    function State(): Memory
      reads this
    {
      Memory(processing, processed)
    }

    constructor ()
      ensures State() == Memory(map[], map[])
    {
      processed, processing := map[], map[];
    }

    /** Pops the entries older than `ttl`, one by one. */
    static method PopStale(m: map<string, real>, now: real, ttl: real) returns (kept: map<string, real>)
      ensures kept == Fresh(m, now, ttl)
    {
      kept := m;
      var todo := m.Keys;
      while todo != {}
        invariant todo <= m.Keys
        invariant kept == map k | k in m && (k in todo || !(now - m[k] > ttl)) :: m[k]
        decreases todo
      {
        var k :| k in todo;
        if now - m[k] > ttl {
          kept := kept - {k};
        }
        todo := todo - {k};
      }
    }

    method Acquire(msgid: string, now: real, ttl: real) returns (ok: bool)
      modifies this
      ensures msgid == "" ==> ok && State() == old(State())
      ensures msgid != "" ==>
        && ok == !Refuses(Sweep(old(State()), now, ttl), msgid, now, ttl)
        && processed == Fresh(old(processed), now, ttl)
        && processing == (if ok then Fresh(old(processing), now, ttl)[msgid := now] else Fresh(old(processing), now, ttl))
      ensures ttl == TTL ==> (State(), ok) == MemoryStep(old(State()), Call(now, Kind.Acquire, msgid))
    {
      if msgid == "" {
        return true;
      }
      processed := PopStale(processed, now, ttl);
      processing := PopStale(processing, now, ttl);
      if msgid in processing {
        return false;
      }
      if msgid in processed && now - processed[msgid] < ttl {
        return false;
      }
      processing := processing[msgid := now];
      return true;
    }

    method MarkDone(msgid: string, now: real)
      modifies this
      ensures State() == MemoryStep(old(State()), Call(now, Kind.MarkDone, msgid)).0
    {
      if msgid == "" {
        return;
      }
      processed := processed[msgid := now];
      processing := processing - {msgid};
    }

    method ReleaseProcessing(msgid: string, now: real) returns (confirmed: bool)
      modifies this
      ensures confirmed
      ensures State() == MemoryStep(old(State()), Call(now, Kind.Release, msgid)).0
    {
      if msgid != "" {
        processing := processing - {msgid};
      }
      confirmed := true;
    }
  }

  // ---------------------------------------------------------------------
  // Redis
  // ---------------------------------------------------------------------

  /** A key with an expiry exists until that instant. */
  predicate Exists(m: map<string, real>, k: string, now: real) {
    k in m && now < m[k]
  }

  function KeysStep(r: Keys, c: Call): (Keys, bool) {
    if c.msgid == "" then (r, true)
    else match c.kind
      case Acquire =>
        if Exists(r.done, c.msgid, c.at) || Exists(r.proc, c.msgid, c.at) then (r, false)
        else (r.(proc := r.proc[c.msgid := c.at + TTL]), true)
      case MarkDone => (Keys(r.proc - {c.msgid}, r.done[c.msgid := c.at + TTL]), true)
      case Release => (r.(proc := r.proc - {c.msgid}), true)
  }

  class RedisDedupStore {
    var proc: map<string, real>
    var done: map<string, real>

    function State(): Keys
      reads this
    {
      Keys(proc, done)
    }

    constructor ()
      ensures State() == Keys(map[], map[])
    {
      proc, done := map[], map[];
    }

    /** A failing Redis lets the message through, whether or not the script was applied. */
    method Acquire(msgid: string, now: real, f: Fault) returns (ok: bool)
      modifies this
      ensures State() == if f == Dropped then old(State()) else KeysStep(old(State()), Call(now, Kind.Acquire, msgid)).0
      ensures ok <==> f != NoFault || KeysStep(old(State()), Call(now, Kind.Acquire, msgid)).1
    {
      if msgid == "" || f == Dropped {
        return true;
      }
      if Exists(done, msgid, now) {
        return f == Applied;
      }
      if Exists(proc, msgid, now) {
        return f == Applied;
      }
      proc := proc[msgid := now + TTL];
      return true;
    }

    method MarkDone(msgid: string, now: real, f: Fault)
      modifies this
      ensures State() == if f == Dropped then old(State()) else KeysStep(old(State()), Call(now, Kind.MarkDone, msgid)).0
    {
      if msgid != "" && f != Dropped {
        done := done[msgid := now + TTL];
        proc := proc - {msgid};
      }
    }

    /** True only when the processing key is known to be absent. */
    method ReleaseProcessing(msgid: string, now: real, f: Fault) returns (confirmed: bool)
      modifies this
      ensures confirmed <==> msgid == "" || f == NoFault
      ensures confirmed && msgid != "" ==> !Exists(proc, msgid, now)
      ensures State() == if f == Dropped then old(State()) else KeysStep(old(State()), Call(now, Kind.Release, msgid)).0
    {
      if msgid == "" {
        return true;
      }
      if f != Dropped {
        proc := proc - {msgid};
      }
      return f == NoFault;
    }
  }

  // ---------------------------------------------------------------------
  // Runs
  // ---------------------------------------------------------------------

  function MemoryAfter(trace: seq<Call>): Memory {
    if trace == [] then Memory(map[], map[])
    else MemoryStep(MemoryAfter(trace[..|trace| - 1]), trace[|trace| - 1]).0
  }

  function KeysAfter(trace: seq<Call>): Keys {
    if trace == [] then Keys(map[], map[])
    else KeysStep(KeysAfter(trace[..|trace| - 1]), trace[|trace| - 1]).0
  }

  function MemoryAnswer(trace: seq<Call>, i: nat): bool
    requires i < |trace|
  {
    MemoryStep(MemoryAfter(trace[..i]), trace[i]).1
  }

  function KeysAnswer(trace: seq<Call>, i: nat): bool
    requires i < |trace|
  {
    KeysStep(KeysAfter(trace[..i]), trace[i]).1
  }

  predicate Sorted(trace: seq<Call>) {
    forall i, j :: 0 <= i < j < |trace| ==> trace[i].at <= trace[j].at
  }

  /** An acquire at the very instant its message's processing entry expires. */
  predicate Tie(m: Memory, c: Call) {
    c.kind == Acquire && c.msgid != "" && c.msgid in m.processing && c.at - m.processing[c.msgid] == TTL
  }

  /** No call of the run falls on such an instant. */
  predicate NoTies(trace: seq<Call>) {
    trace == [] || (
      var n := |trace| - 1;
      NoTies(trace[..n]) && !Tie(MemoryAfter(trace[..n]), trace[n]))
  }

  /** Every call of the run gets the same answer from both stores. */
  predicate AllAgree(trace: seq<Call>) {
    trace == [] || (
      var n := |trace| - 1;
      AllAgree(trace[..n]) && MemoryStep(MemoryAfter(trace[..n]), trace[n]).1 == KeysStep(KeysAfter(trace[..n]), trace[n]).1)
  }

  lemma {:induction false} AgreeAt(trace: seq<Call>, i: nat)
    requires AllAgree(trace) && i < |trace|
    ensures MemoryAnswer(trace, i) == KeysAnswer(trace, i)
    decreases |trace|
  {
    var n := |trace| - 1;
    if i < n {
      AgreeAt(trace[..n], i);
      assert trace[..n][..i] == trace[..i];
    }
  }

  /**
   * What the two stores agree on after a call at `last`: an entry in memory is a
   * key with the matching expiry; one that was swept is a key that has expired.
   */
  ghost predicate Matches(m: map<string, real>, r: map<string, real>, last: real) {
    && (forall k :: k in m ==> k in r && r[k] == m[k] + TTL)
    && (forall k :: k in r && k !in m ==> r[k] <= last)
  }

  ghost predicate Related(m: Memory, r: Keys, last: real) {
    && Matches(m.processing, r.proc, last)
    && Matches(m.processed, r.done, last)
    && (forall k :: k in m.processing ==> m.processing[k] <= last)
    && (forall k :: k in m.processing && k in m.processed ==> m.processed[k] + TTL <= m.processing[k])
  }

  lemma SweepRelated(m: Memory, r: Keys, last: real, now: real)
    requires Related(m, r, last) && last <= now
    ensures Related(Sweep(m, now, TTL), r, now)
  {
  }

  lemma AcquireAgrees(m: Memory, r: Keys, last: real, c: Call)
    requires Related(m, r, last) && last <= c.at && c.kind == Acquire && c.msgid != ""
    ensures MemoryStep(m, c).1 == KeysStep(r, c).1 <==> !Tie(m, c)
    ensures !Tie(m, c) ==> Related(MemoryStep(m, c).0, KeysStep(r, c).0, c.at)
  {
    SweepRelated(m, r, last, c.at);
    var swept := Sweep(m, c.at, TTL);
    assert c.msgid in swept.processing <==> Exists(r.proc, c.msgid, c.at) || Tie(m, c);
    assert c.msgid in swept.processed && c.at - swept.processed[c.msgid] < TTL <==> Exists(r.done, c.msgid, c.at);
  }

  /** From related states, the answers agree exactly when there is no tie. */
  lemma StepAgrees(m: Memory, r: Keys, last: real, c: Call)
    requires Related(m, r, last) && last <= c.at
    ensures MemoryStep(m, c).1 == KeysStep(r, c).1 <==> !Tie(m, c)
    ensures !Tie(m, c) ==> Related(MemoryStep(m, c).0, KeysStep(r, c).0, c.at)
  {
    if c.kind == Acquire && c.msgid != "" {
      AcquireAgrees(m, r, last, c);
    }
  }

  lemma {:induction false} RunAgrees(trace: seq<Call>)
    requires Sorted(trace)
    ensures AllAgree(trace) <==> NoTies(trace)
    ensures NoTies(trace) && trace != [] ==>
      Related(MemoryAfter(trace), KeysAfter(trace), trace[|trace| - 1].at)
    decreases |trace|
  {
    if trace != [] {
      var n := |trace| - 1;
      RunAgrees(trace[..n]);
      if NoTies(trace[..n]) {
        var last := if n == 0 then trace[n].at else trace[n - 1].at;
        StepAgrees(MemoryAfter(trace[..n]), KeysAfter(trace[..n]), last, trace[n]);
      }
    }
  }

  /**
   * The lazily swept store refines the one with per-key expiry: on any sequence
   * of calls the two give the same answers if and only if no acquire falls on
   * the exact expiry instant of its message's processing entry.
   */
  lemma SameAnswers(trace: seq<Call>)
    requires Sorted(trace)
    ensures AllAgree(trace) <==> NoTies(trace)
  {
    RunAgrees(trace);
  }

  /** At such an instant they do differ. */
  lemma TieDiffers()
    ensures var trace := [Call(0.0, Acquire, "m"), Call(600.0, Acquire, "m")];
      Sorted(trace) && !MemoryAnswer(trace, 1) && KeysAnswer(trace, 1)
  {
    var trace := [Call(0.0, Acquire, "m"), Call(600.0, Acquire, "m")];
    assert trace[..1] == [trace[0]] && trace[..1][..0] == [];
    assert MemoryAfter(trace[..1]) == Memory(map["m" := 0.0], map[]);
    assert KeysAfter(trace[..1]) == Keys(map["m" := 600.0], map[]);
  }

  // ---------------------------------------------------------------------
  // One message's answers depend on its own calls only
  // ---------------------------------------------------------------------

  function Own(trace: seq<Call>, msgid: string): seq<Call> {
    if trace == [] then []
    else
      var n := |trace| - 1;
      Own(trace[..n], msgid) + (if trace[n].msgid == msgid then [trace[n]] else [])
  }

  predicate SameFor(a: map<string, real>, b: map<string, real>, k: string) {
    (k in a <==> k in b) && (k in a ==> a[k] == b[k])
  }

  predicate SameKeys(a: Keys, b: Keys, msgid: string) {
    SameFor(a.proc, b.proc, msgid) && SameFor(a.done, b.done, msgid)
  }

  lemma SameStep(a: Keys, b: Keys, c: Call, msgid: string)
    requires SameKeys(a, b, msgid)
    ensures SameKeys(KeysStep(a, c).0, if c.msgid == msgid then KeysStep(b, c).0 else b, msgid)
    ensures c.msgid == msgid ==> KeysStep(a, c).1 == KeysStep(b, c).1
  {
  }

  lemma {:induction false} OwnKeys(trace: seq<Call>, msgid: string)
    ensures SameKeys(KeysAfter(trace), KeysAfter(Own(trace, msgid)), msgid)
    decreases |trace|
  {
    if trace != [] {
      var n := |trace| - 1;
      var own := Own(trace, msgid);
      OwnKeys(trace[..n], msgid);
      SameStep(KeysAfter(trace[..n]), KeysAfter(Own(trace[..n], msgid)), trace[n], msgid);
      if trace[n].msgid == msgid {
        assert own[..|own| - 1] == Own(trace[..n], msgid) && own[|own| - 1] == trace[n];
      } else {
        assert own == Own(trace[..n], msgid);
      }
    }
  }

  /**
   * Without ties, either store answers a call as if the message had been the
   * only one: other messages and the global sweep make no difference.
   */
  lemma AnswersAreOwn(trace: seq<Call>, i: nat)
    requires Sorted(trace) && NoTies(trace) && i < |trace|
    ensures MemoryAnswer(trace, i) == KeysAnswer(trace, i)
    ensures KeysAnswer(trace, i) == KeysStep(KeysAfter(Own(trace[..i], trace[i].msgid)), trace[i]).1
  {
    RunAgrees(trace);
    AgreeAt(trace, i);
    var m := trace[i].msgid;
    OwnKeys(trace[..i], m);
    SameStep(KeysAfter(trace[..i]), KeysAfter(Own(trace[..i], m)), trace[i], m);
  }
  // ---------------------------------------------------------------------
  // Answers by what was called before
  // ---------------------------------------------------------------------

  /** The `j`th call marked the message done, less than the ttl before `t`. */
  predicate MarksAt(trace: seq<Call>, j: nat, m: string, t: real) {
    j < |trace| && trace[j].kind == MarkDone && trace[j].msgid == m && t < trace[j].at + TTL
  }

  predicate Marked(trace: seq<Call>, n: nat, m: string, t: real) {
    exists j: nat :: j < n && MarksAt(trace, j, m, t)
  }

  predicate Ends(c: Call, m: string) {
    c.msgid == m && (c.kind == MarkDone || c.kind == Release)
  }

  /** The `j`th call was an acquire of the message that was granted, less than the ttl before `t`, and not ended since. */
  predicate HoldsAt(trace: seq<Call>, n: nat, j: nat, m: string, t: real) {
    && j < n <= |trace| && trace[j].kind == Acquire && trace[j].msgid == m && KeysAnswer(trace, j)
    && t < trace[j].at + TTL
    && forall k :: j < k < n ==> !Ends(trace[k], m)
  }

  predicate Held(trace: seq<Call>, n: nat, m: string, t: real) {
    exists j: nat :: j < n && HoldsAt(trace, n, j, m, t)
  }

  lemma HeldStep(trace: seq<Call>, n: nat, m: string, t: real)
    requires n < |trace|
    ensures Held(trace, n + 1, m, t) <==>
      || (!Ends(trace[n], m) && Held(trace, n, m, t))
      || (trace[n].kind == Acquire && trace[n].msgid == m && KeysAnswer(trace, n) && t < trace[n].at + TTL)
  {
    if Held(trace, n + 1, m, t) {
      var j: nat :| j < n + 1 && HoldsAt(trace, n + 1, j, m, t);
      assert j < n ==> HoldsAt(trace, n, j, m, t);
    }
    if !Ends(trace[n], m) && Held(trace, n, m, t) {
      var j: nat :| j < n && HoldsAt(trace, n, j, m, t);
      assert HoldsAt(trace, n + 1, j, m, t);
    }
    if trace[n].kind == Acquire && trace[n].msgid == m && KeysAnswer(trace, n) && t < trace[n].at + TTL {
      assert HoldsAt(trace, n + 1, n, m, t);
    }
  }

  lemma MarkedStep(trace: seq<Call>, n: nat, m: string, t: real)
    requires n < |trace|
    ensures Marked(trace, n + 1, m, t) <==> Marked(trace, n, m, t) || MarksAt(trace, n, m, t)
  {
  }

  lemma MarkedBefore(trace: seq<Call>, n: nat, m: string, t: real)
    requires Sorted(trace) && n < |trace| && Marked(trace, n, m, t)
    ensures t < trace[n].at + TTL
  {
    var j: nat :| j < n && MarksAt(trace, j, m, t);
    assert trace[j].at <= trace[n].at;
  }

  lemma HeldBefore(trace: seq<Call>, n: nat, m: string, t: real)
    requires Sorted(trace) && n < |trace| && Held(trace, n, m, t)
    ensures t < trace[n].at + TTL
  {
    var j: nat :| j < n && HoldsAt(trace, n, j, m, t);
    assert trace[j].at <= trace[n].at;
  }

  lemma HistoryStep(trace: seq<Call>, n: nat, m: string, t: real)
    requires Sorted(trace) && n < |trace| && m != ""
    requires Exists(KeysAfter(trace[..n]).done, m, t) <==> Marked(trace, n, m, t)
    requires Exists(KeysAfter(trace[..n]).proc, m, t) <==> Held(trace, n, m, t)
    ensures Exists(KeysStep(KeysAfter(trace[..n]), trace[n]).0.done, m, t) <==> Marked(trace, n + 1, m, t)
    ensures Exists(KeysStep(KeysAfter(trace[..n]), trace[n]).0.proc, m, t) <==> Held(trace, n + 1, m, t)
  {
    HeldStep(trace, n, m, t);
    MarkedStep(trace, n, m, t);
    if Marked(trace, n, m, t) {
      MarkedBefore(trace, n, m, t);
    }
    if Held(trace, n, m, t) {
      HeldBefore(trace, n, m, t);
    }
  }

  lemma {:induction false} KeysAreHistory(trace: seq<Call>, n: nat, m: string, t: real)
    requires Sorted(trace) && n <= |trace| && m != ""
    ensures Exists(KeysAfter(trace[..n]).done, m, t) <==> Marked(trace, n, m, t)
    ensures Exists(KeysAfter(trace[..n]).proc, m, t) <==> Held(trace, n, m, t)
    decreases n
  {
    if n > 0 {
      KeysAreHistory(trace, n - 1, m, t);
      HistoryStep(trace, n - 1, m, t);
      assert trace[..n][..n - 1] == trace[..n - 1];
    }
  }

  /**
   * What a store's answer means, told by the calls before it: an acquire of a message with an id is refused exactly
   * when the message was marked done less than the ttl ago, or an acquire of it was granted less than the ttl ago and
   * the message neither marked done nor released since. Every other call is answered True.
   */
  lemma AnswersAreHistory(trace: seq<Call>, i: nat)
    requires Sorted(trace) && i < |trace|
    ensures KeysAnswer(trace, i) <==>
      || trace[i].kind != Acquire || trace[i].msgid == ""
      || (!Marked(trace, i, trace[i].msgid, trace[i].at) && !Held(trace, i, trace[i].msgid, trace[i].at))
    ensures NoTies(trace) ==> MemoryAnswer(trace, i) == KeysAnswer(trace, i)
  {
    if trace[i].msgid != "" {
      KeysAreHistory(trace, i, trace[i].msgid, trace[i].at);
    }
    if NoTies(trace) {
      RunAgrees(trace);
      AgreeAt(trace, i);
    }
  }
}
