/**
 * Issue progress: what an observation of the external record changes, which subscribers are told, and the chain the
 * status events form (app/services/bug_issue_status_service.py).
 */
module IssueStatus {
  import opened Wrappers
  import opened Text

  datatype Progress = Progress(status: string, reply: string, result: string)

  /** What was read of the external record. */
  datatype Summary = Summary(devStatus: string, reply: string, result: string, module_: string, description: string)

  /**
   * `linked` is the candidate the snapshot started from; `progress` the entry observations write.
   * `since` is history: how many status events existed when the snapshot was last rewritten as a whole.
   */
  datatype Issue = Issue(
    externalId: string, title: string, module_: string, description: string, status: string,
    linked: Progress, progress: Option<Progress>, since: nat)

  datatype StatusEvent = StatusEvent(issue: nat, previous: Progress, current: Progress)

  datatype Subscription = Subscription(
    issue: nat, channel: string, subscriberKey: string, userKey: string, sessionId: string, active: bool)

  datatype DeliveryStatus = Pending | Available

  datatype Delivery = Delivery(
    subscription: nat, event: nat, channel: string, recipient: string, sessionId: string, status: DeliveryStatus)

  /** Row ids are insertion numbers. */
  datatype Store = Store(
    issues: seq<Issue>, subscriptions: seq<Subscription>, events: seq<StatusEvent>, deliveries: seq<Delivery>)

  const PUSH_CHANNELS: set<string> := {"wecom_kf"}

  /** `_has_progress` */
  predicate HasProgress(p: Progress) {
    !Blank(p.status) || !Blank(p.reply) || !Blank(p.result)
  }

  /** `_progress_from_issue` */
  function Stored(issue: Issue): Progress {
    if issue.progress.Some? then issue.progress.value else issue.linked
  }

  /** `_progress_from_summary` */
  function Observed(s: Summary): Progress {
    Progress(Strip(s.devStatus), Strip(s.reply), Strip(s.result))
  }

  function Refreshed(issue: Issue, s: Summary): Issue {
    issue.(progress := Some(Observed(s)),
           status := if Observed(s).status != "" then Observed(s).status else issue.status)
  }

  function DeliveryFor(sub: Subscription, k: nat, event: nat): Delivery {
    Delivery(k, event, sub.channel, Or(sub.userKey, sub.subscriberKey), sub.sessionId,
             if sub.channel in PUSH_CHANNELS then Pending else Available)
  }

  predicate Told(subs: seq<Subscription>, k: nat, issue: nat) {
    k < |subs| && subs[k].issue == issue && subs[k].active
  }

  /** One delivery per active subscription of the issue, among the first `k` subscriptions. */
  function FanOut(subs: seq<Subscription>, k: nat, issue: nat, event: nat): seq<Delivery>
    requires k <= |subs|
  {
    if k == 0 then []
    else FanOut(subs, k - 1, issue, event)
         + (if Told(subs, k - 1, issue) then [DeliveryFor(subs[k - 1], k - 1, event)] else [])
  }

  /** The ids of the pending ones among deliveries inserted from number `first` on. */
  function PendingIds(deliveries: seq<Delivery>, first: nat): seq<nat> {
    if deliveries == [] then []
    else
      var n := |deliveries| - 1;
      PendingIds(deliveries[..n], first) + (if deliveries[n].status == Pending then [first + n] else [])
  }

  predicate Changes(before: Progress, after: Progress) {
    HasProgress(before) && before != after
  }

  /** `_apply_observation`: the new store, and the delivery ids when the progress changed. */
  function Apply(st: Store, i: nat, s: Summary): (Store, Option<seq<nat>>) {
    if !HasProgress(Observed(s)) || i >= |st.issues| then (st, None)
    else
      var previous := Stored(st.issues[i]);
      var st1 := st.(issues := st.issues[i := Refreshed(st.issues[i], s)]);
      if !Changes(previous, Observed(s)) then (st1, None)
      else
        var sent := FanOut(st.subscriptions, |st.subscriptions|, i, |st.events|);
        (st1.(events := st.events + [StatusEvent(i, previous, Observed(s))], deliveries := st.deliveries + sent),
         Some(PendingIds(sent, |st.deliveries|)))
  }

  // ---------------------------------------------------------------------
  // Fan-out
  // ---------------------------------------------------------------------

  /** Only active subscriptions of the issue are told, in order and each at most once. */
  ghost predicate IsFanOut(sent: seq<Delivery>, subs: seq<Subscription>, k: nat, issue: nat, event: nat) {
    && (forall x | 0 <= x < |sent| ::
          && sent[x].subscription < k && Told(subs, sent[x].subscription, issue)
          && sent[x] == DeliveryFor(subs[sent[x].subscription], sent[x].subscription, event))
    && (forall x, y | 0 <= x < y < |sent| :: sent[x].subscription < sent[y].subscription)
  }

  lemma {:induction false} FanOutSound(subs: seq<Subscription>, k: nat, issue: nat, event: nat)
    requires k <= |subs|
    ensures IsFanOut(FanOut(subs, k, issue, event), subs, k, issue, event)
  {
    if k > 0 {
      FanOutSound(subs, k - 1, issue, event);
    }
  }

  /** Every active subscription of the issue is told. */
  lemma {:induction false} FanOutReaches(subs: seq<Subscription>, k: nat, issue: nat, event: nat, j: nat) returns (x: nat)
    requires j < k <= |subs| && Told(subs, j, issue)
    ensures x < |FanOut(subs, k, issue, event)| && FanOut(subs, k, issue, event)[x].subscription == j
  {
    if j == k - 1 {
      x := |FanOut(subs, k - 1, issue, event)|;
    } else {
      x := FanOutReaches(subs, k - 1, issue, event, j);
    }
  }

  /** The returned ids are exactly those of the deliveries to push. */
  lemma {:induction false} PendingIff(deliveries: seq<Delivery>, first: nat, x: nat)
    ensures x in PendingIds(deliveries, first) <==>
      first <= x < first + |deliveries| && deliveries[x - first].status == Pending
  {
    if deliveries != [] {
      PendingIff(deliveries[..|deliveries| - 1], first, x);
    }
  }

  lemma PendingSnoc(sent: seq<Delivery>, d: Delivery, first: nat)
    ensures PendingIds(sent + [d], first) == PendingIds(sent, first) + (if d.status == Pending then [first + |sent|] else [])
  {
    assert (sent + [d])[..|sent|] == sent;
  }

  /**
   * A delivery goes to the subscription's user, or to its key when it has no user, in the subscription's session and
   * channel, and waits to be sent exactly on a channel the service pushes to.
   */
  predicate Addressed(d: Delivery, sub: Subscription) {
    && (sub.userKey != "" ==> d.recipient == sub.userKey)
    && (sub.userKey == "" ==> d.recipient == sub.subscriberKey)
    && d.sessionId == sub.sessionId
    && d.channel == sub.channel
    && (d.status == Pending <==> sub.channel == "wecom_kf")
  }

  /** How a change is announced: the deliveries `st1` adds to `st`, and the ids handed back. */
  ghost predicate Announced(st: Store, st1: Store, i: nat, ids: seq<nat>) {
    var n := |st.deliveries|;
    && st.deliveries <= st1.deliveries
    // each active subscription of the issue is told, and nobody else
    && (forall k: nat | k < |st.subscriptions| ::
          st.subscriptions[k].issue == i && st.subscriptions[k].active <==> exists d :: n <= d < |st1.deliveries| && st1.deliveries[d].subscription == k)
    // once, of this event
    && (forall d, e | n <= d < e < |st1.deliveries| :: st1.deliveries[d].subscription != st1.deliveries[e].subscription)
    && (forall d | n <= d < |st1.deliveries| ::
          && st1.deliveries[d].subscription < |st.subscriptions| && st1.deliveries[d].event == |st.events|
          && Addressed(st1.deliveries[d], st.subscriptions[st1.deliveries[d].subscription]))
    // and the ids are those on a channel the service pushes to
    && (forall x: nat :: x in ids <==> n <= x < |st1.deliveries| && st1.deliveries[x].channel in PUSH_CHANNELS)
  }

  lemma SentAddressed(st: Store, st1: Store, i: nat)
    requires st1.deliveries == st.deliveries + FanOut(st.subscriptions, |st.subscriptions|, i, |st.events|)
    ensures forall d | |st.deliveries| <= d < |st1.deliveries| ::
      && st1.deliveries[d].subscription < |st.subscriptions| && st1.deliveries[d].event == |st.events|
      && Told(st.subscriptions, st1.deliveries[d].subscription, i)
      && Addressed(st1.deliveries[d], st.subscriptions[st1.deliveries[d].subscription])
    ensures forall d, e | |st.deliveries| <= d < e < |st1.deliveries| ::
      st1.deliveries[d].subscription < st1.deliveries[e].subscription
  {
    var n, m := |st.deliveries|, |st.subscriptions|;
    FanOutSound(st.subscriptions, m, i, |st.events|);
    assert forall d | n <= d < |st1.deliveries| ::
      st1.deliveries[d] == FanOut(st.subscriptions, m, i, |st.events|)[d - n];
  }

  lemma SentToEach(st: Store, st1: Store, i: nat, k: nat)
    requires st1.deliveries == st.deliveries + FanOut(st.subscriptions, |st.subscriptions|, i, |st.events|)
    requires Told(st.subscriptions, k, i)
    ensures exists d :: |st.deliveries| <= d < |st1.deliveries| && st1.deliveries[d].subscription == k
  {
    var x := FanOutReaches(st.subscriptions, |st.subscriptions|, i, |st.events|, k);
    assert st1.deliveries[|st.deliveries| + x].subscription == k;
  }

  lemma SentIsAnnounced(st: Store, st1: Store, i: nat)
    requires st1.deliveries == st.deliveries + FanOut(st.subscriptions, |st.subscriptions|, i, |st.events|)
    ensures Announced(st, st1, i, PendingIds(FanOut(st.subscriptions, |st.subscriptions|, i, |st.events|), |st.deliveries|))
  {
    var n := |st.deliveries|;
    var sent := FanOut(st.subscriptions, |st.subscriptions|, i, |st.events|);
    SentAddressed(st, st1, i);
    forall k: nat | k < |st.subscriptions| && st.subscriptions[k].issue == i && st.subscriptions[k].active
      ensures exists d :: n <= d < |st1.deliveries| && st1.deliveries[d].subscription == k
    {
      SentToEach(st, st1, i, k);
    }
    forall x: nat
      ensures x in PendingIds(sent, n) <==> n <= x < |st1.deliveries| && st1.deliveries[x].channel in PUSH_CHANNELS
    {
      PendingIff(sent, n, x);
      if n <= x < |st1.deliveries| {
        assert st1.deliveries[x] == sent[x - n];
      }
    }
  }

  predicate AllBlank(status: string, reply: string, result: string) {
    Blank(status) && Blank(reply) && Blank(result)
  }

  /**
   * An observation that is not blank and differs from a stored progress that is not blank makes one event, and
   * announces it to the subscribers the issue has at that moment. Any other makes no event and no delivery.
   */
  lemma ChangeIsAnnounced(st: Store, i: nat, s: Summary)
    requires i < |st.issues|
    ensures var (st1, ids) := Apply(st, i, s);
      var before := Stored(st.issues[i]);
      var after := Progress(Strip(s.devStatus), Strip(s.reply), Strip(s.result));
      if !AllBlank(s.devStatus, s.reply, s.result) && !AllBlank(before.status, before.reply, before.result) && before != after
      then
        && st1.events == st.events + [StatusEvent(i, before, after)]
        && ids.Some? && Announced(st, st1, i, ids.value)
      else st1.events == st.events && st1.deliveries == st.deliveries && ids == None
  {
    StripTwice(s.devStatus);
    StripTwice(s.reply);
    StripTwice(s.result);
    if HasProgress(Observed(s)) && Changes(Stored(st.issues[i]), Observed(s)) {
      SentIsAnnounced(st, Apply(st, i, s).0, i);
    }
  }

  /**
   * What an observation leaves of the issues: a blank one changes nothing; otherwise the observed progress is stored,
   * a nonblank status becomes the issue's, and neither the rest of the issue nor any other issue changes.
   */
  lemma ObservationStored(st: Store, i: nat, s: Summary, j: nat)
    requires i < |st.issues| && j < |st.issues|
    ensures var st1 := Apply(st, i, s).0;
      && |st1.issues| == |st.issues| && st1.subscriptions == st.subscriptions
      && (Blank(s.devStatus) && Blank(s.reply) && Blank(s.result) ==> Apply(st, i, s) == (st, None))
      && (j != i ==> st1.issues[j] == st.issues[j])
      && (!(Blank(s.devStatus) && Blank(s.reply) && Blank(s.result)) ==>
            && Stored(st1.issues[i]) == Progress(Strip(s.devStatus), Strip(s.reply), Strip(s.result))
            && st1.issues[i].status == (if Blank(s.devStatus) then st.issues[i].status else Strip(s.devStatus))
            && st1.issues[i] == st.issues[i].(progress := st1.issues[i].progress, status := st1.issues[i].status))
  {
    StripTwice(s.devStatus);
    StripTwice(s.reply);
    StripTwice(s.result);
  }

  // ---------------------------------------------------------------------
  // The event chain
  // ---------------------------------------------------------------------

  datatype Op =
    | Observe(issue: nat, summary: Summary)
    | Open(row: Issue)
    | Link(issue: nat, candidate: Progress)
    | Synced(issue: nat, record: string)
    | Subscribe(issue: nat, who: Subscriber)
    | Unsubscribe(k: nat)

  /** The identity a confirmation comes from. */
  datatype Subscriber = Subscriber(channel: string, userKey: string, sessionId: string)

  const NO_PROGRESS := Progress("", "", "")

  /** Linking another report rewrites the snapshot (app/services/bug_assistant_orchestrator.py:621-623). */
  function Relinked(issue: Issue, candidate: Progress, events: nat): Issue {
    issue.(linked := candidate, progress := None, since := events, status := Or(candidate.status, issue.status))
  }

  /**
   * A successful synchronization replaces the snapshot by the record id and the fields written
   * (app/services/bug_issue_sync_service.py:195-200), so what was observed before is forgotten.
   */
  function Rewritten(issue: Issue, record: string, events: nat): Issue {
    issue.(externalId := record, linked := NO_PROGRESS, progress := None, since := events, status := "submitted")
  }

  predicate IsSubscription(sub: Subscription, issue: nat, channel: string, key: string) {
    sub.issue == issue && sub.channel == channel && sub.subscriberKey == key
  }

  function FindSubscription(subs: seq<Subscription>, issue: nat, channel: string, key: string): (found: Option<nat>)
    ensures found.Some? ==> found.value < |subs| && IsSubscription(subs[found.value], issue, channel, key)
    ensures found.None? ==> forall k | 0 <= k < |subs| :: !IsSubscription(subs[k], issue, channel, key)
  {
    if subs == [] then None
    else if IsSubscription(subs[|subs| - 1], issue, channel, key) then Some(|subs| - 1)
    else FindSubscription(subs[..|subs| - 1], issue, channel, key)
  }

  /** `_ensure_subscription`: one row per issue, channel and key, made active again when it is there. */
  function EnsureSubscription(subs: seq<Subscription>, issue: nat, who: Subscriber): seq<Subscription> {
    var key := Strip(Or(who.userKey, who.sessionId));
    var channel := Strip(Or(who.channel, "unknown"));
    if key == "" then subs
    else match FindSubscription(subs, issue, channel, key)
      case None => subs + [Subscription(issue, channel, key, who.userKey, who.sessionId, true)]
      case Some(k) => subs[k := subs[k].(active := true, userKey := Or(who.userKey, subs[k].userKey),
                                         sessionId := Or(who.sessionId, subs[k].sessionId))]
  }

  function Do(st: Store, op: Op): Store {
    match op
    case Observe(i, s) => Apply(st, i, s).0
    case Open(row) => st.(issues := st.issues + [row.(progress := None, since := |st.events|)])
    case Link(i, candidate) =>
      if i < |st.issues| then st.(issues := st.issues[i := Relinked(st.issues[i], candidate, |st.events|)]) else st
    case Synced(i, record) =>
      if i < |st.issues| then st.(issues := st.issues[i := Rewritten(st.issues[i], record, |st.events|)]) else st
    case Subscribe(i, who) => st.(subscriptions := EnsureSubscription(st.subscriptions, i, who))
    case Unsubscribe(k) =>
      if k < |st.subscriptions|
      then st.(subscriptions := st.subscriptions[k := st.subscriptions[k].(active := false)]) else st
  }

  const NEW := Store([], [], [], [])

  function Run(st: Store, ops: seq<Op>): Store
    decreases ops
  {
    if ops == [] then st else Run(Do(st, ops[0]), ops[1..])
  }

  /** The events of one issue among those numbered from `from` on. */
  function EventsOf(events: seq<StatusEvent>, from: nat, issue: nat): seq<StatusEvent> {
    if |events| <= from then []
    else
      var n := |events| - 1;
      EventsOf(events[..n], from, issue) + (if events[n].issue == issue then [events[n]] else [])
  }

  ghost predicate IsChain(es: seq<StatusEvent>) {
    && (forall k | 0 <= k < |es| :: HasProgress(es[k].previous) && HasProgress(es[k].current) && es[k].previous != es[k].current)
    && (forall k | 0 < k < |es| :: es[k].previous == es[k - 1].current)
  }

  /** Since its snapshot was last replaced an issue's events form a chain that ends in the stored progress. */
  ghost predicate ChainOk(st: Store, i: nat)
    requires i < |st.issues|
  {
    var es := EventsOf(st.events, st.issues[i].since, i);
    && st.issues[i].since <= |st.events|
    && IsChain(es)
    && (es != [] ==> es[|es| - 1].current == Stored(st.issues[i]))
  }

  lemma EventsOfSnoc(events: seq<StatusEvent>, e: StatusEvent, from: nat, issue: nat)
    requires from <= |events|
    ensures EventsOf(events + [e], from, issue) == EventsOf(events, from, issue) + (if e.issue == issue then [e] else [])
  {
    assert (events + [e])[..|events|] == events;
  }

  lemma ChainGrows(es: seq<StatusEvent>, e: StatusEvent)
    requires IsChain(es) && HasProgress(e.previous) && HasProgress(e.current) && e.previous != e.current
    requires es != [] ==> es[|es| - 1].current == e.previous
    ensures IsChain(es + [e])
  {
    var grown := es + [e];
    forall k | 0 <= k < |grown|
      ensures HasProgress(grown[k].previous) && HasProgress(grown[k].current) && grown[k].previous != grown[k].current
      ensures k > 0 ==> grown[k].previous == grown[k - 1].current
    {
      assert grown[k] == if k < |es| then es[k] else e;
    }
  }

  lemma ApplyKeepsChain(st: Store, k: nat, s: Summary, i: nat)
    requires i < |st.issues| && ChainOk(st, i)
    requires k < |st.issues| && HasProgress(Observed(s)) && Changes(Stored(st.issues[k]), Observed(s))
    ensures var st1 := Apply(st, k, s).0; |st1.issues| == |st.issues| && ChainOk(st1, i)
  {
    var e := StatusEvent(k, Stored(st.issues[k]), Observed(s));
    var es := EventsOf(st.events, st.issues[i].since, i);
    var st1 := Apply(st, k, s).0;
    EventsOfSnoc(st.events, e, st.issues[i].since, i);
    assert st1.events == st.events + [e] && st1.issues[i].since == st.issues[i].since;
    if k == i {
      ChainGrows(es, e);
      assert EventsOf(st1.events, st.issues[i].since, i) == es + [e];
    } else {
      assert EventsOf(st1.events, st.issues[i].since, i) == es && st1.issues[i] == st.issues[i];
    }
  }

  lemma ChainEndHasProgress(st: Store, i: nat)
    requires i < |st.issues| && ChainOk(st, i)
    ensures EventsOf(st.events, st.issues[i].since, i) != [] ==> HasProgress(Stored(st.issues[i]))
  {
  }

  lemma SameKeepsChain(st: Store, k: nat, s: Summary, i: nat)
    requires i < |st.issues| && ChainOk(st, i)
    requires k < |st.issues| && HasProgress(Observed(s)) && !Changes(Stored(st.issues[k]), Observed(s))
    ensures var st1 := Apply(st, k, s).0; |st1.issues| == |st.issues| && ChainOk(st1, i)
  {
    ChainEndHasProgress(st, i);
  }

  /** A snapshot replaced as a whole starts a new chain. */
  lemma ReplacedKeepsChain(st: Store, st1: Store, k: nat, i: nat)
    requires i < |st.issues| && ChainOk(st, i) && k < |st.issues| && st1.events == st.events
    requires |st1.issues| == |st.issues| && st1.issues[k].since == |st.events|
    requires i != k ==> st1.issues[i] == st.issues[i]
    ensures ChainOk(st1, i)
  {
    assert i == k ==> EventsOf(st1.events, |st.events|, i) == [];
  }

  lemma DoKeepsChain(st: Store, op: Op, i: nat)
    requires i < |st.issues| && ChainOk(st, i)
    ensures |st.issues| <= |Do(st, op).issues| && ChainOk(Do(st, op), i)
  {
    match op {
      case Observe(k, s) =>
        if k < |st.issues| && HasProgress(Observed(s)) {
          if Changes(Stored(st.issues[k]), Observed(s)) {
            ApplyKeepsChain(st, k, s, i);
          } else {
            SameKeepsChain(st, k, s, i);
          }
        }
      case Link(k, candidate) =>
        if k < |st.issues| {
          ReplacedKeepsChain(st, Do(st, op), k, i);
        }
      case Synced(k, record) =>
        if k < |st.issues| {
          ReplacedKeepsChain(st, Do(st, op), k, i);
        }
      case _ =>
    }
  }

  lemma NewIssueChain(st: Store, op: Op, i: nat)
    requires |st.issues| <= i < |Do(st, op).issues|
    ensures ChainOk(Do(st, op), i)
  {
    assert EventsOf(st.events, |st.events|, i) == [];
  }

  ghost predicate ChainsOk(st: Store) {
    forall i | 0 <= i < |st.issues| :: ChainOk(st, i)
  }

  lemma DoKeepsChains(st: Store, op: Op)
    requires ChainsOk(st)
    ensures ChainsOk(Do(st, op))
  {
    forall i | 0 <= i < |Do(st, op).issues|
      ensures ChainOk(Do(st, op), i)
    {
      if i < |st.issues| {
        DoKeepsChain(st, op, i);
      } else {
        NewIssueChain(st, op, i);
      }
    }
  }

  lemma {:induction false} RunKeepsChains(st: Store, ops: seq<Op>)
    requires ChainsOk(st)
    ensures ChainsOk(Run(st, ops))
    decreases ops
  {
    if ops != [] {
      DoKeepsChains(st, ops[0]);
      RunKeepsChains(Do(st, ops[0]), ops[1..]);
    }
  }

  /** After every run from the empty store, for every issue. */
  lemma ChainHolds(ops: seq<Op>, i: nat)
    requires i < |Run(NEW, ops).issues|
    ensures ChainOk(Run(NEW, ops), i)
  {
    RunKeepsChains(NEW, ops);
  }

  // ---------------------------------------------------------------------
  // Events are the changes of what was observed
  // ---------------------------------------------------------------------

  /** What was observed of one issue in a run, blank observations left out. */
  function Observations(ops: seq<Op>, i: nat): seq<Progress> {
    if ops == [] then []
    else Seen(ops[0], i) + Observations(ops[1..], i)
  }

  /** The snapshot of issue `i` is replaced as a whole. */
  predicate Replaces(op: Op, i: nat) {
    (op.Link? || op.Synced?) && op.issue == i
  }

  predicate Unreplaced(ops: seq<Op>, i: nat) {
    forall op :: op in ops ==> !Replaces(op, i)
  }

  /** The steps between neighbours that differ, starting from the progress stored at first. */
  function Steps(stored: Progress, seen: seq<Progress>, i: nat): seq<StatusEvent>
    decreases seen
  {
    if seen == [] then []
    else (if Changes(stored, seen[0]) then [StatusEvent(i, stored, seen[0])] else []) + Steps(seen[0], seen[1..], i)
  }

  function Last(stored: Progress, seen: seq<Progress>): Progress {
    if seen == [] then stored else seen[|seen| - 1]
  }

  function NewEvents(st: Store, i: nat): seq<StatusEvent>
    requires i < |st.issues|
  {
    EventsOf(st.events, st.issues[i].since, i)
  }

  /** From `st` to `st1` issue `i` saw `seen`, and recorded exactly its changes. */
  ghost predicate Recorded(st: Store, st1: Store, i: nat, seen: seq<Progress>)
    requires i < |st.issues|
  {
    && |st.issues| <= |st1.issues| && st1.issues[i].since == st.issues[i].since <= |st1.events|
    && NewEvents(st1, i) == NewEvents(st, i) + Steps(Stored(st.issues[i]), seen, i)
    && Stored(st1.issues[i]) == Last(Stored(st.issues[i]), seen)
  }

  function Seen(op: Op, i: nat): seq<Progress> {
    if op.Observe? && op.issue == i && HasProgress(Observed(op.summary)) then [Observed(op.summary)] else []
  }

  lemma DoRecords(st: Store, op: Op, i: nat)
    requires i < |st.issues| && !Replaces(op, i) && st.issues[i].since <= |st.events|
    ensures Recorded(st, Do(st, op), i, Seen(op, i))
  {
    if op.Observe? && op.issue < |st.issues| {
      var current := Observed(op.summary);
      EventsOfSnoc(st.events, StatusEvent(op.issue, Stored(st.issues[op.issue]), current), st.issues[i].since, i);
    }
  }

  lemma StepsAppend(stored: Progress, a: seq<Progress>, b: seq<Progress>, i: nat)
    requires |a| <= 1
    ensures Steps(stored, a + b, i) == Steps(stored, a, i) + Steps(Last(stored, a), b, i)
    ensures Last(Last(stored, a), b) == Last(stored, a + b)
  {
    if a == [] {
      assert a + b == b;
    } else {
      assert (a + b)[1..] == b && a[1..] == [];
    }
  }

  lemma RecordedThrough(st: Store, st1: Store, st2: Store, i: nat, a: seq<Progress>, b: seq<Progress>)
    requires i < |st.issues| && |a| <= 1 && Recorded(st, st1, i, a) && Recorded(st1, st2, i, b)
    ensures Recorded(st, st2, i, a + b)
  {
    StepsAppend(Stored(st.issues[i]), a, b, i);
  }

  /**
   * While the snapshot is not replaced, whatever happens to other issues and to the subscriptions: the new events of an issue are exactly
   * the changes between its successive nonblank observations, and the last of these is what is stored.
   */
  lemma {:induction false} EventsAreChanges(st: Store, ops: seq<Op>, i: nat)
    requires i < |st.issues| && Unreplaced(ops, i) && st.issues[i].since <= |st.events|
    ensures Recorded(st, Run(st, ops), i, Observations(ops, i))
    decreases ops
  {
    if ops == [] {
      assert NewEvents(st, i) + [] == NewEvents(st, i);
    } else {
      assert ops[0] in ops && Unreplaced(ops[1..], i);
      DoRecords(st, ops[0], i);
      EventsAreChanges(Do(st, ops[0]), ops[1..], i);
      RecordedThrough(st, Do(st, ops[0]), Run(st, ops), i, Seen(ops[0], i), Observations(ops[1..], i));
    }
  }

  // ---------------------------------------------------------------------
  // Deliveries over a run
  // ---------------------------------------------------------------------

  ghost predicate OneRowPerSubscriber(subs: seq<Subscription>) {
    forall k, l | 0 <= k < l < |subs| :: !IsSubscription(subs[l], subs[k].issue, subs[k].channel, subs[k].subscriberKey)
  }

  /** The subscriber a delivery is for. */
  function Receiver(st: Store, d: Delivery): (string, string)
    requires d.subscription < |st.subscriptions|
  {
    (st.subscriptions[d.subscription].channel, st.subscriptions[d.subscription].subscriberKey)
  }

  /** Deliveries are of events of the issue subscribed to, and each subscription is told once of an event. */
  ghost predicate DeliveriesOk(st: Store) {
    && (forall d | 0 <= d < |st.deliveries| ::
          && st.deliveries[d].event < |st.events| && st.deliveries[d].subscription < |st.subscriptions|
          && st.events[st.deliveries[d].event].issue == st.subscriptions[st.deliveries[d].subscription].issue
          && (st.deliveries[d].status == Pending <==> st.deliveries[d].channel in PUSH_CHANNELS))
    && (forall d, e | 0 <= d < e < |st.deliveries| ::
          st.deliveries[d].event != st.deliveries[e].event || st.deliveries[d].subscription != st.deliveries[e].subscription)
  }

  lemma SubscribeOk(st: Store, i: nat, who: Subscriber)
    requires DeliveriesOk(st) && OneRowPerSubscriber(st.subscriptions)
    ensures DeliveriesOk(Do(st, Subscribe(i, who))) && OneRowPerSubscriber(Do(st, Subscribe(i, who)).subscriptions)
  {
    var subs, subs1 := st.subscriptions, EnsureSubscription(st.subscriptions, i, who);
    assert forall k | 0 <= k < |subs| :: IsSubscription(subs1[k], subs[k].issue, subs[k].channel, subs[k].subscriberKey);
  }

  lemma ApplyDeliveries(st: Store, i: nat, s: Summary)
    requires DeliveriesOk(st)
    ensures DeliveriesOk(Apply(st, i, s).0)
  {
    if i < |st.issues| && HasProgress(Observed(s)) && Changes(Stored(st.issues[i]), Observed(s)) {
      var sent := FanOut(st.subscriptions, |st.subscriptions|, i, |st.events|);
      FanOutSound(st.subscriptions, |st.subscriptions|, i, |st.events|);
      SentKeepsDeliveries(st, Apply(st, i, s).0, StatusEvent(i, Stored(st.issues[i]), Observed(s)), sent);
    }
  }

  lemma SentKeepsDeliveries(st: Store, st1: Store, e: StatusEvent, sent: seq<Delivery>)
    requires DeliveriesOk(st)
    requires st1.subscriptions == st.subscriptions && st1.events == st.events + [e] && st1.deliveries == st.deliveries + sent
    requires IsFanOut(sent, st.subscriptions, |st.subscriptions|, e.issue, |st.events|)
    ensures DeliveriesOk(st1)
  {
    var n := |st.deliveries|;
    assert forall d | n <= d < |st1.deliveries| :: st1.deliveries[d] == sent[d - n];
    assert forall d | 0 <= d < n :: st1.deliveries[d] == st.deliveries[d];
  }

  lemma {:induction false} RunDeliveries(st: Store, ops: seq<Op>)
    requires DeliveriesOk(st) && OneRowPerSubscriber(st.subscriptions)
    ensures DeliveriesOk(Run(st, ops)) && OneRowPerSubscriber(Run(st, ops).subscriptions)
    decreases ops
  {
    if ops != [] {
      match ops[0] {
        case Observe(i, s) => ApplyDeliveries(st, i, s);
        case Subscribe(i, who) => SubscribeOk(st, i, who);
        case _ =>
      }
      RunDeliveries(Do(st, ops[0]), ops[1..]);
    }
  }

  /** After every run from the empty store, no subscriber has two deliveries of one event. */
  lemma DeliveriesHold(ops: seq<Op>)
    ensures DeliveriesOk(Run(NEW, ops))
    ensures var st := Run(NEW, ops);
      forall d, e | 0 <= d < e < |st.deliveries| && st.deliveries[d].event == st.deliveries[e].event ::
        Receiver(st, st.deliveries[d]) != Receiver(st, st.deliveries[e])
  {
    RunDeliveries(NEW, ops);
    var st := Run(NEW, ops);
    forall d, e | 0 <= d < e < |st.deliveries| && st.deliveries[d].event == st.deliveries[e].event
      ensures Receiver(st, st.deliveries[d]) != Receiver(st, st.deliveries[e])
    {
      ReceiversDiffer(st, d, e);
    }
  }

  lemma ReceiversDiffer(st: Store, d: nat, e: nat)
    requires DeliveriesOk(st) && OneRowPerSubscriber(st.subscriptions)
    requires d < e < |st.deliveries| && st.deliveries[d].event == st.deliveries[e].event
    ensures Receiver(st, st.deliveries[d]) != Receiver(st, st.deliveries[e])
  {
    var k, l := st.deliveries[d].subscription, st.deliveries[e].subscription;
    assert k < l ==> !IsSubscription(st.subscriptions[l], st.subscriptions[k].issue, st.subscriptions[k].channel, st.subscriptions[k].subscriberKey);
    assert l < k ==> !IsSubscription(st.subscriptions[k], st.subscriptions[l].issue, st.subscriptions[l].channel, st.subscriptions[l].subscriberKey);
  }

  /**
   * What replaces a snapshot: linking stores the candidate's progress and, if it has one, its status; synchronizing
   * stores the record, no progress at all, and "submitted"; nothing else of the issue, and no other issue, changes.
   */
  lemma ReplacingStores(st: Store, i: nat, candidate: Progress, record: string, j: nat)
    requires i < |st.issues| && j < |st.issues|
    ensures var linked, synced := Do(st, Link(i, candidate)), Do(st, Synced(i, record));
      var before, a, b := st.issues[i], linked.issues[i], synced.issues[i];
      && |linked.issues| == |synced.issues| == |st.issues|
      && Stored(a) == candidate && a.status == (if candidate.status != "" then candidate.status else before.status)
      && a.externalId == before.externalId
      && Stored(b) == NO_PROGRESS && b.status == "submitted" && b.externalId == record
      && a.title == b.title == before.title && a.module_ == b.module_ == before.module_
      && a.description == b.description == before.description
      && (j != i ==> linked.issues[j] == synced.issues[j] == st.issues[j])
      && linked.events == synced.events == st.events && linked.deliveries == synced.deliveries == st.deliveries
  {
  }

  /** A subscription that ended is told nothing any more, and the others are as they were. */
  lemma UnsubscribeEnds(st: Store, k: nat, j: nat)
    requires k < |st.subscriptions| && j < |st.subscriptions|
    ensures var subs1 := Do(st, Unsubscribe(k)).subscriptions;
      |subs1| == |st.subscriptions| && !subs1[k].active && (j != k ==> subs1[j] == st.subscriptions[j])
  {
  }

  /** Subscribing makes the subscriber one that is told, under its latest keys, and leaves the others as they were. */
  lemma SubscribeTells(st: Store, i: nat, who: Subscriber) returns (k: nat)
    requires Strip(Or(who.userKey, who.sessionId)) != ""
    ensures var subs, subs1 := st.subscriptions, Do(st, Subscribe(i, who)).subscriptions;
      && k < |subs1| && |subs| <= |subs1| <= |subs| + 1
      && IsSubscription(subs1[k], i, Strip(Or(who.channel, "unknown")), Strip(Or(who.userKey, who.sessionId)))
      && subs1[k].active
      && (who.userKey != "" ==> subs1[k].userKey == who.userKey)
      && (who.sessionId != "" ==> subs1[k].sessionId == who.sessionId)
      && (k < |subs| ==>
            && |subs1| == |subs|
            && (who.userKey == "" ==> subs1[k].userKey == subs[k].userKey)
            && (who.sessionId == "" ==> subs1[k].sessionId == subs[k].sessionId))
      && (forall j | 0 <= j < |subs| && j != k :: subs1[j] == subs[j])
  {
    var found := FindSubscription(
      st.subscriptions, i, Strip(Or(who.channel, "unknown")), Strip(Or(who.userKey, who.sessionId)));
    k := if found.Some? then found.value else |st.subscriptions|;
  }

  // ---------------------------------------------------------------------
  // Reconciliation
  // ---------------------------------------------------------------------

  /** What fetching and storing one record came to. */
  datatype Answer = Fetched(summary: Summary) | NoRecord | Raised

  datatype Report = Report(checked: nat, changed: nat, skipped: nat, failed: nat, deliveryIds: seq<nat>)

  const NOTHING := Report(0, 0, 0, 0, [])

  /** One turn of the `reconcile` loop. */
  function Turn(st: Store, r: Report, i: nat, a: Answer): (Store, Report) {
    match a
    case Fetched(s) =>
      var (st1, ids) := Apply(st, i, s);
      if ids.None? then (st1, r.(checked := r.checked + 1, skipped := r.skipped + 1))
      else (st1, r.(checked := r.checked + 1, changed := r.changed + 1, deliveryIds := r.deliveryIds + ids.value))
    case _ => (st, r.(checked := r.checked + 1, failed := r.failed + 1))
  }

  function Reconciled(st: Store, r: Report, rows: seq<nat>, answers: seq<Answer>): (Store, Report)
    requires |answers| == |rows|
    decreases rows
  {
    if rows == [] then (st, r)
    else
      var (st1, r1) := Turn(st, r, rows[0], answers[0]);
      Reconciled(st1, r1, rows[1..], answers[1..])
  }

  /** What a report says about a pass that started with `events` events and `deliveries` deliveries. */
  ghost predicate ReportOk(st: Store, r: Report, events: nat, deliveries: nat) {
    && r.checked == r.changed + r.skipped + r.failed
    && |st.events| == events + r.changed
    && deliveries <= |st.deliveries|
    && r.deliveryIds == PendingIds(st.deliveries[deliveries..], deliveries)
  }

  lemma {:induction false} PendingAppend(a: seq<Delivery>, b: seq<Delivery>, first: nat)
    ensures PendingIds(a + b, first) == PendingIds(a, first) + PendingIds(b, first + |a|)
    decreases b
  {
    if b == [] {
      assert a + b == a;
    } else {
      var n := |b| - 1;
      assert (a + b)[..|a| + n] == a + b[..n];
      PendingAppend(a, b[..n], first);
    }
  }

  lemma PendingFrom(ds: seq<Delivery>, sent: seq<Delivery>, from: nat)
    requires from <= |ds|
    ensures PendingIds((ds + sent)[from..], from) == PendingIds(ds[from..], from) + PendingIds(sent, |ds|)
  {
    assert (ds + sent)[from..] == ds[from..] + sent;
    PendingAppend(ds[from..], sent, from);
  }

  lemma ApplyReports(st: Store, i: nat, s: Summary, ids: seq<nat>, deliveries: nat)
    requires deliveries <= |st.deliveries| && Apply(st, i, s).1.Some?
    requires ids == PendingIds(st.deliveries[deliveries..], deliveries)
    ensures var (st1, more) := Apply(st, i, s);
      && |st1.events| == |st.events| + 1 && |st.deliveries| <= |st1.deliveries|
      && ids + more.value == PendingIds(st1.deliveries[deliveries..], deliveries)
  {
    PendingFrom(st.deliveries, FanOut(st.subscriptions, |st.subscriptions|, i, |st.events|), deliveries);
  }

  lemma TurnReports(st: Store, r: Report, i: nat, a: Answer, events: nat, deliveries: nat)
    requires ReportOk(st, r, events, deliveries)
    ensures var (st1, r1) := Turn(st, r, i, a);
      ReportOk(st1, r1, events, deliveries) && r1.checked == r.checked + 1
  {
    if a.Fetched? && Apply(st, i, a.summary).1.Some? {
      ApplyReports(st, i, a.summary, r.deliveryIds, deliveries);
    }
  }

  /**
   * A pass accounts for every issue it looked at exactly once; each change made one status event; and the ids it
   * returns are exactly the deliveries to push among those it created.
   */
  lemma {:induction false} ReconcileAccounts(st: Store, r: Report, rows: seq<nat>, answers: seq<Answer>, events: nat, deliveries: nat)
    requires |answers| == |rows| && ReportOk(st, r, events, deliveries)
    ensures var (st1, r1) := Reconciled(st, r, rows, answers);
      ReportOk(st1, r1, events, deliveries) && r1.checked == r.checked + |rows|
    decreases rows
  {
    if rows != [] {
      TurnReports(st, r, rows[0], answers[0], events, deliveries);
      var (st1, r1) := Turn(st, r, rows[0], answers[0]);
      ReconcileAccounts(st1, r1, rows[1..], answers[1..], events, deliveries);
    }
  }

  function Failures(answers: seq<Answer>): nat {
    if answers == [] then 0 else (if answers[0].Fetched? then 0 else 1) + Failures(answers[1..])
  }

  /** Failed are exactly the issues whose record could not be fetched or stored; skipped those that showed no change. */
  lemma {:induction false} ReconcileFailures(st: Store, r: Report, rows: seq<nat>, answers: seq<Answer>)
    requires |answers| == |rows|
    ensures Reconciled(st, r, rows, answers).1.failed == r.failed + Failures(answers)
    decreases rows
  {
    if rows != [] {
      var (st1, r1) := Turn(st, r, rows[0], answers[0]);
      ReconcileFailures(st1, r1, rows[1..], answers[1..]);
    }
  }

  class IssueStatusService {
    var issues: seq<Issue>
    var subscriptions: seq<Subscription>
    var events: seq<StatusEvent>
    var deliveries: seq<Delivery>

    ghost function Value(): Store
      reads this
    {
      Store(issues, subscriptions, events, deliveries)
    }

    constructor ()
      ensures Value() == NEW
    {
      issues, subscriptions, events, deliveries := [], [], [], [];
    }

    method ApplyObservation(i: nat, s: Summary) returns (ids: Option<seq<nat>>)
      modifies this`issues, this`events, this`deliveries
      ensures (Value(), ids) == Apply(old(Value()), i, s)
    {
      var observed := Progress(Strip(s.devStatus), Strip(s.reply), Strip(s.result));
      if !HasProgress(observed) || i >= |issues| {
        return None;
      }
      var previous := Stored(issues[i]);
      issues := issues[i := issues[i].(progress := Some(observed))];
      if observed.status != "" {
        issues := issues[i := issues[i].(status := observed.status)];
      }
      assert issues == old(issues)[i := Refreshed(old(issues[i]), s)];
      if !HasProgress(previous) || previous == observed {
        return None;
      }
      var event := |events|;
      events := events + [StatusEvent(i, previous, observed)];
      var pushed := Notify(i, event);
      ids := Some(pushed);
    }

    method Notify(i: nat, event: nat) returns (pushed: seq<nat>)
      modifies this`deliveries
      ensures deliveries == old(deliveries) + FanOut(subscriptions, |subscriptions|, i, event)
      ensures pushed == PendingIds(FanOut(subscriptions, |subscriptions|, i, event), |old(deliveries)|)
    {
      pushed := [];
      var sent: seq<Delivery> := [];
      var k := 0;
      while k < |subscriptions|
        invariant 0 <= k <= |subscriptions|
        invariant deliveries == old(deliveries)
        invariant sent == FanOut(subscriptions, k, i, event)
        invariant pushed == PendingIds(sent, |deliveries|)
      {
        if subscriptions[k].issue == i && subscriptions[k].active {
          sent, pushed := Add(sent, pushed, k, event);
        }
        k := k + 1;
      }
      deliveries := deliveries + sent;
    }

    method Add(before: seq<Delivery>, ids: seq<nat>, k: nat, event: nat) returns (sent: seq<Delivery>, pushed: seq<nat>)
      requires k < |subscriptions| && ids == PendingIds(before, |deliveries|)
      ensures sent == before + [DeliveryFor(subscriptions[k], k, event)]
      ensures pushed == PendingIds(sent, |deliveries|)
    {
      var sub := subscriptions[k];
      var d := Delivery(k, event, sub.channel, Or(sub.userKey, sub.subscriberKey), sub.sessionId,
                        if sub.channel in PUSH_CHANNELS then Pending else Available);
      PendingSnoc(before, d, |deliveries|);
      pushed := if d.status == Pending then ids + [|deliveries| + |before|] else ids;
      sent := before + [d];
    }

    method Reconcile(rows: seq<nat>, answers: seq<Answer>) returns (r: Report)
      requires |answers| == |rows|
      modifies this`issues, this`events, this`deliveries
      ensures (Value(), r) == Reconciled(old(Value()), NOTHING, rows, answers)
      ensures r.checked == |rows| && r.changed + r.skipped + r.failed == |rows|
      ensures r.failed == Failures(answers) && |events| == |old(events)| + r.changed
      ensures |deliveries| >= |old(deliveries)|
      ensures r.deliveryIds == PendingIds(deliveries[|old(deliveries)|..], |old(deliveries)|)
    {
      r := NOTHING;
      var k := 0;
      while k < |rows|
        invariant 0 <= k <= |rows|
        invariant Reconciled(old(Value()), NOTHING, rows, answers) == Reconciled(Value(), r, rows[k..], answers[k..])
      {
        assert rows[k..][1..] == rows[k + 1..] && answers[k..][1..] == answers[k + 1..];
        r := ReconcileOne(r, rows[k], answers[k]);
        k := k + 1;
      }
      assert old(deliveries)[|old(deliveries)|..] == [];
      ReconcileAccounts(old(Value()), NOTHING, rows, answers, |old(events)|, |old(deliveries)|);
      ReconcileFailures(old(Value()), NOTHING, rows, answers);
    }

    method ReconcileOne(before: Report, i: nat, a: Answer) returns (r: Report)
      modifies this`issues, this`events, this`deliveries
      ensures (Value(), r) == Turn(old(Value()), before, i, a)
    {
      r := before.(checked := before.checked + 1);
      match a {
        case Fetched(s) =>
          var ids := ApplyObservation(i, s);
          if ids.None? {
            r := r.(skipped := r.skipped + 1);
          } else {
            r := r.(changed := r.changed + 1, deliveryIds := r.deliveryIds + ids.value);
          }
        case _ => r := r.(failed := r.failed + 1);
      }
    }
  }
}
