/**
 * The Redis lists of the durable message queue and the Lua scripts that move
 * envelopes between them (app/services/message_queue.py).
 *
 * Every command that touches the lists is one atomic operation `Op`; a failed
 * or lost command is `Skip`. Nothing here says who issues an operation or when,
 * so what is proved over all sequences of operations holds for every
 * interleaving of workers, recoveries, crashes and mistaken recoveries.
 */
module QueueState {

  /** The fields of `InboundMessage` that the delivery protocol reads. */
  datatype Inbound = Inbound(msgid: string, protocol: string, userId: string, openKfid: string)

  /**
   * A list element: the JSON text of an envelope, compared by Redis as a whole.
   * The three flags say what a worker finds when it decodes the text: whether it
   * is a JSON object, whether its adapter is registered, and whether its payload
   * rebuilds an `InboundMessage`.
   */
  datatype Envelope = Envelope(
    id: nat,
    parses: bool,
    adapterKnown: bool,
    rebuilds: bool,
    inbound: Inbound,
    attempts: nat,
    startedAt: int)
  {
    predicate Deliverable() {
      parses && adapterKnown && rebuilds
    }
  }

  // ---------------------------------------------------------------------
  // List commands
  // ---------------------------------------------------------------------

  /** LREM key 1 v: drops the first occurrence of `v`. */
  function Lrem(l: seq<Envelope>, v: Envelope): seq<Envelope> {
    if l == [] then []
    else if l[0] == v then l[1..]
    else [l[0]] + Lrem(l[1..], v)
  }

  /** The claim script: overwrites the first occurrence of `v` with `w`. */
  function Lset(l: seq<Envelope>, v: Envelope, w: Envelope): seq<Envelope> {
    if l == [] then []
    else if l[0] == v then [w] + l[1..]
    else [l[0]] + Lset(l[1..], v, w)
  }

  /** The requeue script: each item still in `src` is removed and pushed on `dst`. */
  function RequeueLists(src: seq<Envelope>, dst: seq<Envelope>, items: seq<Envelope>)
    : (seq<Envelope>, seq<Envelope>)
    decreases items
  {
    if items == [] then (src, dst)
    else if items[0] in src then RequeueLists(Lrem(src, items[0]), [items[0]] + dst, items[1..])
    else RequeueLists(src, dst, items[1..])
  }

  // ---------------------------------------------------------------------
  // Queue state and operations
  // ---------------------------------------------------------------------

  /**
   * `procs[c]` is the processing list of consumer `c`; consumer ids are fresh
   * random identifiers in the source and are numbered in start order here.
   * `log`, `acked` and `fails` are history: the envelopes accepted so far (the
   * envelope with id i is `log[i]`), the envelopes removed by a success
   * acknowledgement, and the counted failures of each id.
   */
  datatype Queues = Queues(
    main: seq<Envelope>,
    procs: seq<seq<Envelope>>,
    dead: seq<Envelope>,
    log: seq<Envelope>,
    acked: seq<Envelope>,
    fails: seq<nat>)

  datatype Op =
    | Skip
    | Join
    | Push(inbound: Inbound, parses: bool, adapterKnown: bool, rebuilds: bool)
    | Pop(c: nat)
    | Stamp(c: nat, raw: Envelope, startedAt: int)
    | GiveBack(c: nat, raw: Envelope)
    | Retry(c: nat, raw: Envelope, maxAttempts: nat)
    | Bury(c: nat, raw: Envelope)
    | Ack(c: nat, raw: Envelope)
    | Requeue(c: nat, items: seq<Envelope>)

  predicate Legal(q: Queues, op: Op) {
    match op
    case Skip => true
    case Join => true
    case Push(_, _, _, _) => true
    case Pop(c) => c < |q.procs| && q.main != []
    case Stamp(c, _, _) => c < |q.procs|
    case GiveBack(c, _) => c < |q.procs|
    case Retry(c, _, _) => c < |q.procs|
    case Bury(c, _) => c < |q.procs|
    case Ack(c, _) => c < |q.procs|
    case Requeue(c, _) => c < |q.procs|
  }

  /** The envelope `enqueue` builds: a fresh id and no failed attempt yet. */
  function NewEnvelope(q: Queues, inbound: Inbound, parses: bool, adapterKnown: bool, rebuilds: bool): Envelope {
    Envelope(|q.log|, parses, adapterKnown, rebuilds, inbound, 0, 0)
  }

  function Apply(q: Queues, op: Op): Queues
    requires Legal(q, op)
  {
    match op
    case Skip => q
    case Join => q.(procs := q.procs + [[]])
    case Push(inbound, parses, adapterKnown, rebuilds) =>
      var e := NewEnvelope(q, inbound, parses, adapterKnown, rebuilds);
      q.(main := [e] + q.main, log := q.log + [e], fails := q.fails + [0])
    case Pop(c) =>
      var e := q.main[|q.main| - 1];
      q.(main := q.main[..|q.main| - 1], procs := q.procs[c := [e] + q.procs[c]])
    case Stamp(c, raw, startedAt) =>
      q.(procs := q.procs[c := Lset(q.procs[c], raw, raw.(startedAt := startedAt))])
    case GiveBack(c, raw) =>
      if raw !in q.procs[c] then q
      else q.(procs := q.procs[c := Lrem(q.procs[c], raw)], main := [raw] + q.main)
    case Retry(c, raw, maxAttempts) =>
      if raw !in q.procs[c] then q
      else
        var counted := raw.(attempts := raw.attempts + 1);
        var q1 := q.(procs := q.procs[c := Lrem(q.procs[c], raw)],
                     fails := if raw.id < |q.fails| then q.fails[raw.id := q.fails[raw.id] + 1] else q.fails);
        if counted.attempts < maxAttempts then q1.(main := [counted] + q.main)
        else q1.(dead := [counted] + q.dead)
    case Bury(c, raw) =>
      if raw !in q.procs[c] then q
      else q.(procs := q.procs[c := Lrem(q.procs[c], raw)], dead := [raw] + q.dead)
    case Ack(c, raw) =>
      if raw !in q.procs[c] then q
      else q.(procs := q.procs[c := Lrem(q.procs[c], raw)], acked := [raw] + q.acked)
    case Requeue(c, items) =>
      var (src, dst) := RequeueLists(q.procs[c], q.main, items);
      q.(procs := q.procs[c := src], main := dst)
  }

  const EMPTY := Queues([], [], [], [], [], [])

  /** The operations of `ops` are each legal when their turn comes. */
  predicate LegalRun(q: Queues, ops: seq<Op>)
    decreases |ops|
  {
    ops == [] || (Legal(q, ops[0]) && LegalRun(Apply(q, ops[0]), ops[1..]))
  }

  function Run(q: Queues, ops: seq<Op>): Queues
    requires LegalRun(q, ops)
    decreases |ops|
  {
    if ops == [] then q else Run(Apply(q, ops[0]), ops[1..])
  }

  // ---------------------------------------------------------------------
  // Conservation
  // ---------------------------------------------------------------------

  /** How many elements of a list have this id. */
  function Count(l: seq<Envelope>, id: nat): nat {
    if l == [] then 0 else (if l[0].id == id then 1 else 0) + Count(l[1..], id)
  }

  /** How many elements of all processing lists together have this id. */
  function ProcCount(ps: seq<seq<Envelope>>, id: nat): nat {
    if ps == [] then 0 else Count(ps[0], id) + ProcCount(ps[1..], id)
  }

  /** How often an id occurs in the places an envelope can be in. */
  function Places(q: Queues, id: nat): nat {
    Count(q.main, id) + ProcCount(q.procs, id) + Count(q.dead, id) + Count(q.acked, id)
  }

  /** Each accepted id is in exactly one place, and no other id is anywhere. */
  ghost predicate Conserved(q: Queues) {
    forall id: nat :: Places(q, id) == if id < |q.log| then 1 else 0
  }

  lemma CountCons(e: Envelope, l: seq<Envelope>, id: nat)
    ensures Count([e] + l, id) == (if e.id == id then 1 else 0) + Count(l, id)
  {
    assert ([e] + l)[1..] == l;
  }

  lemma {:induction false} CountInit(l: seq<Envelope>, id: nat)
    requires l != []
    ensures Count(l, id) == Count(l[..|l| - 1], id) + (if l[|l| - 1].id == id then 1 else 0)
  {
    if |l| == 1 {
      assert l[1..] == [] && l[..0] == [];
    } else {
      CountInit(l[1..], id);
      assert l[1..][..|l| - 2] == l[..|l| - 1][1..];
    }
  }

  lemma {:induction false} CountMember(l: seq<Envelope>, e: Envelope)
    requires e in l
    ensures Count(l, e.id) > 0
  {
    if l[0] != e {
      CountMember(l[1..], e);
    }
  }

  lemma {:induction false} LremCount(l: seq<Envelope>, v: Envelope, id: nat)
    requires v in l
    ensures Count(l, id) == Count(Lrem(l, v), id) + (if v.id == id then 1 else 0)
  {
    if l[0] != v {
      LremCount(l[1..], v, id);
      CountCons(l[0], Lrem(l[1..], v), id);
    }
  }

  lemma {:induction false} LremMembers(l: seq<Envelope>, v: Envelope)
    ensures forall e :: e in Lrem(l, v) ==> e in l
  {
    if l != [] && l[0] != v {
      LremMembers(l[1..], v);
    }
  }

  lemma {:induction false} LsetCount(l: seq<Envelope>, v: Envelope, w: Envelope, id: nat)
    requires v.id == w.id
    ensures Count(Lset(l, v, w), id) == Count(l, id)
  {
    if l != [] {
      if l[0] == v {
        CountCons(w, l[1..], id);
      } else {
        LsetCount(l[1..], v, w, id);
        CountCons(l[0], Lset(l[1..], v, w), id);
      }
    }
  }

  lemma {:induction false} LsetMembers(l: seq<Envelope>, v: Envelope, w: Envelope)
    ensures forall e :: e in Lset(l, v, w) ==> e in l || (e == w && v in l)
    ensures v in l ==> w in Lset(l, v, w)
  {
    if l != [] && l[0] != v {
      LsetMembers(l[1..], v, w);
    }
  }

  lemma {:induction false} RequeueCount(src: seq<Envelope>, dst: seq<Envelope>, items: seq<Envelope>, id: nat)
    ensures var (s, d) := RequeueLists(src, dst, items);
      Count(s, id) + Count(d, id) == Count(src, id) + Count(dst, id)
    decreases items
  {
    if items != [] {
      if items[0] in src {
        LremCount(src, items[0], id);
        CountCons(items[0], dst, id);
        RequeueCount(Lrem(src, items[0]), [items[0]] + dst, items[1..], id);
      } else {
        RequeueCount(src, dst, items[1..], id);
      }
    }
  }

  /** The requeue script moves nothing but listed items that were still there. */
  lemma {:induction false} RequeueMembers(src: seq<Envelope>, dst: seq<Envelope>, items: seq<Envelope>)
    ensures var (s, d) := RequeueLists(src, dst, items);
      && (forall e :: e in s ==> e in src)
      && (forall e :: e in d ==> e in dst || (e in items && e in src))
    decreases items
  {
    if items != [] {
      if items[0] in src {
        LremMembers(src, items[0]);
        RequeueMembers(Lrem(src, items[0]), [items[0]] + dst, items[1..]);
      } else {
        RequeueMembers(src, dst, items[1..]);
      }
    }
  }

  lemma {:induction false} ProcCountUpdate(ps: seq<seq<Envelope>>, c: nat, l: seq<Envelope>, id: nat)
    requires c < |ps|
    ensures ProcCount(ps[c := l], id) + Count(ps[c], id) == ProcCount(ps, id) + Count(l, id)
    ensures Count(ps[c], id) <= ProcCount(ps, id)
  {
    if c == 0 {
      assert ps[0 := l][1..] == ps[1..];
    } else {
      ProcCountUpdate(ps[1..], c - 1, l, id);
      assert ps[c := l][1..] == ps[1..][c - 1 := l];
    }
  }

  lemma {:induction false} ProcCountJoin(ps: seq<seq<Envelope>>, id: nat)
    ensures ProcCount(ps + [[]], id) == ProcCount(ps, id)
  {
    if ps == [] {
      assert (ps + [[]])[1..] == [];
    } else {
      ProcCountJoin(ps[1..], id);
      assert (ps + [[]])[1..] == ps[1..] + [[]];
    }
  }

  /** Taking `raw` out of a processing list takes exactly its id out. */
  lemma TakeCount(q: Queues, c: nat, raw: Envelope, id: nat)
    requires c < |q.procs| && raw in q.procs[c]
    ensures ProcCount(q.procs, id)
      == ProcCount(q.procs[c := Lrem(q.procs[c], raw)], id) + (if raw.id == id then 1 else 0)
  {
    LremCount(q.procs[c], raw, id);
    ProcCountUpdate(q.procs, c, Lrem(q.procs[c], raw), id);
  }

  /** An operation other than Push moves ids between places and changes none. */
  lemma StepPlaces(q: Queues, op: Op, id: nat)
    requires Legal(q, op)
    ensures Places(Apply(q, op), id) == Places(q, id) + (if op.Push? && id == |q.log| then 1 else 0)
  {
    match op
    case Skip =>
    case Join => ProcCountJoin(q.procs, id);
    case Push(inbound, parses, adapterKnown, rebuilds) =>
      CountCons(NewEnvelope(q, inbound, parses, adapterKnown, rebuilds), q.main, id);
    case Pop(c) =>
      var e := q.main[|q.main| - 1];
      CountInit(q.main, id);
      CountCons(e, q.procs[c], id);
      ProcCountUpdate(q.procs, c, [e] + q.procs[c], id);
    case Stamp(c, raw, startedAt) =>
      LsetCount(q.procs[c], raw, raw.(startedAt := startedAt), id);
      ProcCountUpdate(q.procs, c, Lset(q.procs[c], raw, raw.(startedAt := startedAt)), id);
    case GiveBack(c, raw) =>
      if raw in q.procs[c] {
        TakeCount(q, c, raw, id);
        CountCons(raw, q.main, id);
      }
    case Retry(c, raw, _) =>
      if raw in q.procs[c] {
        TakeCount(q, c, raw, id);
        CountCons(raw.(attempts := raw.attempts + 1), q.main, id);
        CountCons(raw.(attempts := raw.attempts + 1), q.dead, id);
      }
    case Bury(c, raw) =>
      if raw in q.procs[c] {
        TakeCount(q, c, raw, id);
        CountCons(raw, q.dead, id);
      }
    case Ack(c, raw) =>
      if raw in q.procs[c] {
        TakeCount(q, c, raw, id);
        CountCons(raw, q.acked, id);
      }
    case Requeue(c, items) =>
      RequeueCount(q.procs[c], q.main, items, id);
      ProcCountUpdate(q.procs, c, RequeueLists(q.procs[c], q.main, items).0, id);
  }

  lemma LogGrows(q: Queues, op: Op)
    requires Legal(q, op)
    ensures |Apply(q, op).log| == |q.log| + (if op.Push? then 1 else 0)
    ensures q.log <= Apply(q, op).log
  {
  }

  lemma ConservedStep(q: Queues, op: Op)
    requires Legal(q, op) && Conserved(q)
    ensures Conserved(Apply(q, op))
  {
    LogGrows(q, op);
    forall id: nat ensures Places(Apply(q, op), id) == if id < |Apply(q, op).log| then 1 else 0 {
      StepPlaces(q, op, id);
    }
  }

  /**
   * Conservation: whatever sequence of list operations is issued, each accepted
   * envelope stays in exactly one of main, one processing list, dead or acked.
   */
  lemma {:induction false} Conservation(q: Queues, ops: seq<Op>)
    requires LegalRun(q, ops) && Conserved(q)
    ensures Conserved(Run(q, ops))
    decreases |ops|
  {
    if ops != [] {
      ConservedStep(q, ops[0]);
      Conservation(Apply(q, ops[0]), ops[1..]);
    }
  }

  /** What conservation says of an envelope found in a processing list. */
  lemma OnlyThere(q: Queues, c: nat, raw: Envelope)
    requires Conserved(q) && c < |q.procs| && raw in q.procs[c]
    ensures raw.id < |q.log|
    ensures forall e :: e in q.main || e in q.dead || e in q.acked ==> e.id != raw.id
    ensures forall d, e :: 0 <= d < |q.procs| && d != c && e in q.procs[d] ==> e.id != raw.id
    ensures forall e :: e in Lrem(q.procs[c], raw) ==> e.id != raw.id
  {
    var id := raw.id;
    assert Places(q, id) == if id < |q.log| then 1 else 0;
    CountMember(q.procs[c], raw);
    ProcCountUpdate(q.procs, c, [], id);
    LremCount(q.procs[c], raw, id);
    forall e | e in q.main || e in q.dead || e in q.acked ensures e.id != id {
      if e in q.main { CountMember(q.main, e); }
      else if e in q.dead { CountMember(q.dead, e); }
      else { CountMember(q.acked, e); }
    }
    forall d, e | 0 <= d < |q.procs| && d != c && e in q.procs[d] ensures e.id != id {
      CountMember(q.procs[d], e);
      ProcCountUpdate(q.procs[c := []], d, [], id);
    }
    forall e | e in Lrem(q.procs[c], raw) ensures e.id != id {
      CountMember(Lrem(q.procs[c], raw), e);
    }
  }

  // ---------------------------------------------------------------------
  // Retry budget
  // ---------------------------------------------------------------------

  /** The envelope's attempt counter is the number of its counted failures. */
  predicate Exact(q: Queues, e: Envelope) {
    e.id < |q.fails| && q.fails[e.id] == e.attempts
  }

  /**
   * Attempt counters are exact everywhere, below the limit while the envelope
   * is still to be processed and never above it.
   */
  ghost predicate Budgeted(q: Queues, maxAttempts: nat) {
    && |q.fails| == |q.log|
    && (forall e :: e in q.main ==> Exact(q, e) && e.attempts < maxAttempts)
    && (forall c, e :: 0 <= c < |q.procs| && e in q.procs[c] ==> Exact(q, e) && e.attempts < maxAttempts)
    && (forall e :: e in q.dead ==> Exact(q, e))
    && (forall i :: 0 <= i < |q.fails| ==> q.fails[i] <= maxAttempts)
  }

  /** Every consumer runs with the same limit. */
  predicate SameLimit(op: Op, maxAttempts: nat) {
    op.Retry? ==> op.maxAttempts == maxAttempts
  }

  lemma BudgetRetry(q: Queues, op: Op, maxAttempts: nat)
    requires Legal(q, op) && Conserved(q) && Budgeted(q, maxAttempts)
    requires op.Retry? && op.maxAttempts == maxAttempts && op.raw in q.procs[op.c]
    ensures Budgeted(Apply(q, op), maxAttempts)
  {
    OnlyThere(q, op.c, op.raw);
    LremMembers(q.procs[op.c], op.raw);
    var q' := Apply(q, op);
    assert Exact(q, op.raw);
    assert forall e: Envelope :: e.id != op.raw.id && Exact(q, e) ==> Exact(q', e);
  }

  /** Operations that only move envelopes between the lists. */
  lemma BudgetMove(q: Queues, op: Op, maxAttempts: nat)
    requires Legal(q, op) && Conserved(q) && Budgeted(q, maxAttempts)
    requires op.GiveBack? || op.Bury? || op.Ack? || op.Requeue?
    ensures Budgeted(Apply(q, op), maxAttempts)
  {
    if op.Requeue? {
      RequeueMembers(q.procs[op.c], q.main, op.items);
    } else {
      LremMembers(q.procs[op.c], op.raw);
    }
  }

  lemma BudgetStep(q: Queues, op: Op, maxAttempts: nat)
    requires Legal(q, op) && Conserved(q) && Budgeted(q, maxAttempts)
    requires SameLimit(op, maxAttempts) && maxAttempts > 0
    ensures Budgeted(Apply(q, op), maxAttempts)
  {
    match op
    case Skip =>
    case Join =>
    case Push(_, _, _, _) =>
      assert forall e: Envelope :: Exact(q, e) ==> Exact(Apply(q, op), e);
    case Pop(c) =>
    case Stamp(c, raw, startedAt) => LsetMembers(q.procs[c], raw, raw.(startedAt := startedAt));
    case Retry(c, raw, _) => if raw in q.procs[c] { BudgetRetry(q, op, maxAttempts); }
    case _ => BudgetMove(q, op, maxAttempts);
  }

  lemma {:induction false} BudgetedRun(q: Queues, ops: seq<Op>, maxAttempts: nat)
    requires LegalRun(q, ops) && Conserved(q) && Budgeted(q, maxAttempts)
    requires maxAttempts > 0 && forall op :: op in ops ==> SameLimit(op, maxAttempts)
    ensures Budgeted(Run(q, ops), maxAttempts)
    decreases |ops|
  {
    if ops != [] {
      ConservedStep(q, ops[0]);
      BudgetStep(q, ops[0], maxAttempts);
      BudgetedRun(Apply(q, ops[0]), ops[1..], maxAttempts);
    }
  }

  function Sum(s: seq<nat>): nat {
    if s == [] then 0 else s[0] + Sum(s[1..])
  }

  lemma {:induction false} SumBound(s: seq<nat>, bound: nat)
    requires forall i :: 0 <= i < |s| ==> s[i] <= bound
    ensures Sum(s) <= |s| * bound
  {
    if s != [] {
      SumBound(s[1..], bound);
    }
  }

  /**
   * Over every run from an empty queue: attempt counters are exact and within
   * the limit, and n accepted envelopes allow at most n * maxAttempts counted
   * failures in all.
   */
  lemma RetryBudget(ops: seq<Op>, maxAttempts: nat)
    requires LegalRun(EMPTY, ops) && maxAttempts > 0
    requires forall op :: op in ops ==> SameLimit(op, maxAttempts)
    ensures Budgeted(Run(EMPTY, ops), maxAttempts)
    ensures Sum(Run(EMPTY, ops).fails) <= |Run(EMPTY, ops).log| * maxAttempts
  {
    BudgetedRun(EMPTY, ops, maxAttempts);
    SumBound(Run(EMPTY, ops).fails, maxAttempts);
  }

  // ---------------------------------------------------------------------
  // Order
  // ---------------------------------------------------------------------

  /** Main in acceptance order: its ids strictly decrease from head to tail. */
  ghost predicate Ordered(l: seq<Envelope>) {
    forall i, j :: 0 <= i < j < |l| ==> l[i].id > l[j].id
  }

  /** `e` was accepted after everything in the list, as far as its head tells. */
  predicate Fits(e: Envelope, l: seq<Envelope>) {
    l == [] || l[0].id < e.id
  }

  /** Each item the requeue script moves fits the list it is pushed on. */
  predicate RequeueFits(src: seq<Envelope>, dst: seq<Envelope>, items: seq<Envelope>)
    decreases items
  {
    if items == [] then true
    else if items[0] in src then
      Fits(items[0], dst) && RequeueFits(Lrem(src, items[0]), [items[0]] + dst, items[1..])
    else RequeueFits(src, dst, items[1..])
  }

  /** The operation puts no delivery back behind one that was accepted later. */
  predicate KeepsOrder(q: Queues, op: Op)
    requires Legal(q, op)
  {
    match op
    case GiveBack(c, raw) => raw in q.procs[c] ==> Fits(raw, q.main)
    case Retry(c, raw, maxAttempts) => raw in q.procs[c] && raw.attempts + 1 < maxAttempts ==> Fits(raw, q.main)
    case Requeue(c, items) => RequeueFits(q.procs[c], q.main, items)
    case _ => true
  }

  lemma ConsOrdered(e: Envelope, l: seq<Envelope>)
    requires Ordered(l)
    ensures Ordered([e] + l) <==> Fits(e, l)
  {
    var el := [e] + l;
    if l != [] {
      assert el[0] == e && el[1] == l[0];
    }
  }

  /** Nothing the script pushes can repair a list that is out of order. */
  lemma {:induction false} RequeueDisordered(src: seq<Envelope>, dst: seq<Envelope>, items: seq<Envelope>)
    requires !Ordered(dst)
    ensures !Ordered(RequeueLists(src, dst, items).1)
    decreases items
  {
    if items != [] {
      if items[0] in src {
        var i, j :| 0 <= i < j < |dst| && dst[i].id <= dst[j].id;
        var pushed := [items[0]] + dst;
        assert pushed[i + 1] == dst[i] && pushed[j + 1] == dst[j];
        RequeueDisordered(Lrem(src, items[0]), pushed, items[1..]);
      } else {
        RequeueDisordered(src, dst, items[1..]);
      }
    }
  }

  lemma {:induction false} RequeueOrdered(src: seq<Envelope>, dst: seq<Envelope>, items: seq<Envelope>)
    requires Ordered(dst)
    ensures Ordered(RequeueLists(src, dst, items).1) <==> RequeueFits(src, dst, items)
    decreases items
  {
    if items != [] {
      if items[0] in src {
        ConsOrdered(items[0], dst);
        if Fits(items[0], dst) {
          RequeueOrdered(Lrem(src, items[0]), [items[0]] + dst, items[1..]);
        } else {
          RequeueDisordered(Lrem(src, items[0]), [items[0]] + dst, items[1..]);
        }
      } else {
        RequeueOrdered(src, dst, items[1..]);
      }
    }
  }

  lemma NewestFits(q: Queues)
    requires Conserved(q) && q.main != []
    ensures q.main[0].id < |q.log|
  {
    CountMember(q.main, q.main[0]);
    assert Places(q, q.main[0].id) > 0;
  }

  /** One operation keeps main in acceptance order exactly when it puts no delivery back behind a later one. */
  lemma OrderStep(q: Queues, op: Op)
    requires Legal(q, op) && Conserved(q) && Ordered(q.main)
    ensures Ordered(Apply(q, op).main) <==> KeepsOrder(q, op)
  {
    match op
    case Push(inbound, parses, adapterKnown, rebuilds) =>
      if q.main != [] {
        NewestFits(q);
      }
      ConsOrdered(NewEnvelope(q, inbound, parses, adapterKnown, rebuilds), q.main);
    case GiveBack(c, raw) => ConsOrdered(raw, q.main);
    case Retry(c, raw, _) => ConsOrdered(raw.(attempts := raw.attempts + 1), q.main);
    case Requeue(c, items) => RequeueOrdered(q.procs[c], q.main, items);
    case _ =>
  }

  /** A lock-busy requeue keeps the order exactly when everything in main was accepted before the delivery. */
  lemma GiveBackOrder(q: Queues, c: nat, raw: Envelope)
    requires c < |q.procs| && raw in q.procs[c] && Ordered(q.main)
    ensures Ordered(Apply(q, GiveBack(c, raw)).main) <==> q.main == [] || q.main[0].id < raw.id
  {
    ConsOrdered(raw, q.main);
  }

  /** Main is in acceptance order in every state of the run. */
  ghost predicate OrderedAlong(q: Queues, ops: seq<Op>)
    requires LegalRun(q, ops)
    decreases |ops|
  {
    Ordered(q.main) && (ops != [] ==> OrderedAlong(Apply(q, ops[0]), ops[1..]))
  }

  /** No operation of the run puts a delivery back behind one that was accepted later. */
  predicate KeptAlong(q: Queues, ops: seq<Op>)
    requires LegalRun(q, ops)
    decreases |ops|
  {
    ops != [] ==> KeepsOrder(q, ops[0]) && KeptAlong(Apply(q, ops[0]), ops[1..])
  }

  lemma {:induction false} OrderKept(q: Queues, ops: seq<Op>)
    requires LegalRun(q, ops) && Conserved(q) && Ordered(q.main)
    ensures OrderedAlong(q, ops) <==> KeptAlong(q, ops)
    ensures KeptAlong(q, ops) ==> Ordered(Run(q, ops).main)
    decreases |ops|
  {
    if ops != [] {
      OrderStep(q, ops[0]);
      ConservedStep(q, ops[0]);
      if Ordered(Apply(q, ops[0]).main) {
        OrderKept(Apply(q, ops[0]), ops[1..]);
      }
    }
  }

  /**
   * When the queue is first in, first out: in every run from the empty queue main stays in acceptance order exactly
   * as long as no requeue, retry or recovery puts a delivery back behind one accepted later; and while it does, the
   * next delivery taken is the one of main that was accepted first.
   */
  lemma AcceptanceOrder(ops: seq<Op>)
    requires LegalRun(EMPTY, ops)
    ensures OrderedAlong(EMPTY, ops) <==> KeptAlong(EMPTY, ops)
    ensures KeptAlong(EMPTY, ops) ==>
      var main := Run(EMPTY, ops).main;
      forall i :: 0 <= i < |main| - 1 ==> main[|main| - 1].id < main[i].id
  {
    OrderKept(EMPTY, ops);
  }

  /**
   * The queue is not first in, first out: a delivery given back because its lock is busy is taken again only after
   * one that was accepted later.
   */
  lemma NotFifo(a: Inbound, b: Inbound)
    ensures var first, second := Envelope(0, true, true, true, a, 0, 0), Envelope(1, true, true, true, b, 0, 0);
      var ops := [Join, Push(a, true, true, true), Push(b, true, true, true), Pop(0), GiveBack(0, first), Pop(0)];
      && LegalRun(EMPTY, ops)
      && Run(EMPTY, ops).log == [first, second]
      && Run(EMPTY, ops).procs == [[second]] && Run(EMPTY, ops).main == [first]
  {
    var first, second := Envelope(0, true, true, true, a, 0, 0), Envelope(1, true, true, true, b, 0, 0);
    var q3 := EMPTY.(main := [second, first], procs := [[]], log := [first, second], fails := [0, 0]);
    var q5 := q3.(main := [first, second]);
    var q6 := q3.(main := [first], procs := [[second]]);
    FifoTail(q5, q6, second);
    FifoMiddle(q3, q5, q6, first, second);
    var q1 := Apply(EMPTY, Join);
    var q2 := Apply(q1, Push(a, true, true, true));
    assert q1.procs == [[]] && [first] + [] == [first] && q2.log == [first] && q2.fails == [0];
    assert Apply(q2, Push(b, true, true, true)) == q3;
    var rest := [Pop(0), GiveBack(0, first), Pop(0)];
    RunCons(q2, Push(b, true, true, true), rest);
    RunCons(q1, Push(a, true, true, true), [Push(b, true, true, true)] + rest);
    RunCons(EMPTY, Join, [Push(a, true, true, true)] + ([Push(b, true, true, true)] + rest));
    assert [Join] + ([Push(a, true, true, true)] + ([Push(b, true, true, true)] + rest))
      == [Join, Push(a, true, true, true), Push(b, true, true, true), Pop(0), GiveBack(0, first), Pop(0)];
  }

  lemma FifoTail(q5: Queues, q6: Queues, second: Envelope)
    requires |q5.main| == 2 && q5.main[1] == second && q5.procs == [[]]
    requires q6 == q5.(main := [q5.main[0]], procs := [[second]])
    ensures LegalRun(q5, [Pop(0)]) && Run(q5, [Pop(0)]) == q6
  {
    assert q5.main[..1] == q6.main && [second] + [] == [second];
    RunCons(q5, Pop(0), []);
    assert [Pop(0)] + [] == [Pop(0)];
  }

  lemma FifoMiddle(q3: Queues, q5: Queues, q6: Queues, first: Envelope, second: Envelope)
    requires q3.main == [second, first] && q3.procs == [[]] && first != second
    requires q5 == q3.(main := [first, second])
    requires LegalRun(q5, [Pop(0)]) && Run(q5, [Pop(0)]) == q6
    ensures LegalRun(q3, [Pop(0), GiveBack(0, first), Pop(0)])
    ensures Run(q3, [Pop(0), GiveBack(0, first), Pop(0)]) == q6
  {
    var q4 := q3.(main := [second], procs := [[first]]);
    assert q3.main[..1] == [second] && [first] + [] == [first];
    assert Apply(q3, Pop(0)) == q4;
    assert Lrem([first], first) == [] && [first] + [second] == [first, second];
    assert Apply(q4, GiveBack(0, first)) == q5;
    RunCons(q4, GiveBack(0, first), [Pop(0)]);
    RunCons(q3, Pop(0), [GiveBack(0, first)] + [Pop(0)]);
    assert [Pop(0)] + ([GiveBack(0, first)] + [Pop(0)]) == [Pop(0), GiveBack(0, first), Pop(0)];
  }

  lemma RunCons(q: Queues, op: Op, rest: seq<Op>)
    requires Legal(q, op) && LegalRun(Apply(q, op), rest)
    ensures LegalRun(q, [op] + rest) && Run(q, [op] + rest) == Run(Apply(q, op), rest)
  {
    assert ([op] + rest)[1..] == rest;
  }
}
