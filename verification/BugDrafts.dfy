/**
 * The bug-draft tables and the deterministic assistant of the v2 route:
 * `BugtrackService` (app/services/bugtrack_service.py) and
 * `BugAssistantOrchestrator.handle` (app/services/bug_assistant_orchestrator.py).
 *
 * A call is one transaction: it either commits all it wrote or, when it raises,
 * nothing. The candidate search is left open: it finds a qualified candidate,
 * finds none, or raises.
 */
module BugDrafts {
  import opened Wrappers
  import opened Text

  // ---------------------------------------------------------------------
  // Tables
  // ---------------------------------------------------------------------

  datatype Flow =
    | Collecting | Matching | Awaiting | Ready | Suspended | Queued
    | Submitted | Linked | Abandoned | Expired | Superseded

  datatype Status = Active | StSubmitted | StAbandoned | StExpired | StSuperseded

  datatype EventKind =
    | DraftCreated | DraftExpired | DraftSuperseded
    | EventReceived | ReportStarted | ReportPatched
    | InformationRequired | SearchStarted | SearchFailed | CandidatePresented | NoCandidate
    | ExistingLinked | CandidateRejected | SubmissionQueued
    | AssistantSuspended | AssistantResumed | AssistantAbandoned
    | SyncFailed | SyncSucceeded | AttachmentAdded

  /** One row of a draft's event history, in insertion order. */
  datatype StateEvent = StateEvent(kind: EventKind, from: Option<Flow>, to: Flow)

  /** A record of the external table offered as a possible duplicate. */
  datatype Candidate = Candidate(recordId: string, description: string, module_: string, status: string)

  const NO_CANDIDATE := Candidate("", "", "", "")

  const DESCRIPTION := "operation_description"
  const PATCH_FIELDS := ["module", DESCRIPTION, "environment", "issue_type", "search_keyword"]

  datatype Draft = Draft(
    status: Status,
    flow: Flow,
    fields: map<string, string>,
    matchedId: string,
    snapshot: Candidate,
    recordId: string,
    expiresAt: int,
    closedAt: Option<int>,
    submittedAt: Option<int>,
    events: seq<StateEvent>)

  datatype Source = Local | Feishu

  /** `origin` is history: the draft a local issue was created for. */
  datatype Issue = Issue(source: Source, externalId: string, status: string, snapshot: Candidate, origin: Option<nat>)

  datatype LinkType = NewIssue | ConfirmedDuplicate

  datatype ReportStatus = RLinked | RQueued | RSubmitted

  datatype Report = Report(issue: nat, status: ReportStatus, link: LinkType, externalId: string, submittedAt: Option<int>)

  datatype OutboxStatus = Processing | Pending | Succeeded

  datatype Outbox = Outbox(status: OutboxStatus, attempts: nat, issue: nat)

  datatype Subscriber = Subscriber(issue: nat, channel: string, key: string)

  /**
   * Row ids of drafts and issues are their insertion numbers. Reports and outbox
   * rows are keyed by their draft, which the schema makes unique.
   */
  datatype Db = Db(
    drafts: seq<Draft>,
    bindings: map<(string, string), nat>,
    issues: seq<Issue>,
    reports: map<nat, Report>,
    outbox: map<nat, Outbox>,
    subscriptions: set<Subscriber>)

  // ---------------------------------------------------------------------
  // Identity, requests and replies
  // ---------------------------------------------------------------------

  datatype Identity = Identity(channel: string, userKey: string, sessionId: string)

  /** The (namespace, key) pairs of the v2 storage identity. */
  function Bindings(id: Identity): seq<(string, string)> {
    var channel := Strip(Or(id.channel, "unknown")) + "_v2";
    (if Strip(id.sessionId) == "" then [] else [(channel + "_session", Strip(id.sessionId))])
    + (if Strip(id.userKey) == "" then [] else [(channel + "_user", Strip(id.userKey))])
  }

  function Channel(id: Identity): string {
    Strip(Or(id.channel, "unknown"))
  }

  /** The two identities come by one channel and have the session or the user in common. */
  predicate Meet(a: Identity, b: Identity) {
    && Channel(a) == Channel(b)
    && ((Strip(a.sessionId) != "" && Strip(a.sessionId) == Strip(b.sessionId))
        || (Strip(a.userKey) != "" && Strip(a.userKey) == Strip(b.userKey)))
  }

  lemma Namespaces(c: string, d: string)
    ensures c + "_v2" + "_session" != d + "_v2" + "_user"
    ensures c + "_v2" + "_session" == d + "_v2" + "_session" ==> c == d
    ensures c + "_v2" + "_user" == d + "_v2" + "_user" ==> c == d
  {
    var cs, ds, cu, du := c + "_v2" + "_session", d + "_v2" + "_session", c + "_v2" + "_user", d + "_v2" + "_user";
    assert cs[|cs| - 1] == 'n' && du[|du| - 1] == 'r';
    assert c == cs[..|cs| - 11] && d == ds[..|ds| - 11] && c == cu[..|cu| - 8] && d == du[..|du| - 8];
  }

  /**
   * Whose draft is whose: two identities have a key in common exactly when they meet; a session is looked up before a
   * user; and no key is one of the first version's, which lack the mark.
   */
  lemma KeysMeet(a: Identity, b: Identity)
    ensures (exists k :: k in Bindings(a) && k in Bindings(b)) <==> Meet(a, b)
    ensures Strip(a.sessionId) != "" ==> Bindings(a) != [] && Bindings(a)[0] == (Channel(a) + "_v2_session", Strip(a.sessionId))
    ensures Strip(a.sessionId) == "" && Strip(a.userKey) != "" ==> Bindings(a) == [(Channel(a) + "_v2_user", Strip(a.userKey))]
    ensures Strip(a.sessionId) == "" && Strip(a.userKey) == "" ==> Bindings(a) == []
  {
    Namespaces(Channel(a), Channel(b));
    Namespaces(Channel(b), Channel(a));
    BindingsAre(a);
    BindingsAre(b);
    if Meet(a, b) {
      assert (SessionKey(a) in Bindings(a) && SessionKey(a) in Bindings(b))
        || (UserKey(a) in Bindings(a) && UserKey(a) in Bindings(b));
    }
  }

  function SessionKey(id: Identity): (string, string) {
    (Channel(id) + "_v2" + "_session", Strip(id.sessionId))
  }

  function UserKey(id: Identity): (string, string) {
    (Channel(id) + "_v2" + "_user", Strip(id.userKey))
  }

  lemma BindingsAre(id: Identity)
    ensures forall k :: k in Bindings(id) <==>
      (Strip(id.sessionId) != "" && k == SessionKey(id)) || (Strip(id.userKey) != "" && k == UserKey(id))
    ensures SessionKey(id).0 == Channel(id) + "_v2_session" && UserKey(id).0 == Channel(id) + "_v2_user"
    ensures Bindings(id) != [] ==>
      Bindings(id)[0] == if Strip(id.sessionId) != "" then SessionKey(id) else UserKey(id)
    ensures |Bindings(id)| == (if Strip(id.sessionId) == "" then 0 else 1) + (if Strip(id.userKey) == "" then 0 else 1)
  {
    assert "_v2" + "_session" == "_v2_session" && "_v2" + "_user" == "_v2_user";
    assert Channel(id) + "_v2" + "_session" == Channel(id) + ("_v2" + "_session");
    assert Channel(id) + "_v2" + "_user" == Channel(id) + ("_v2" + "_user");
  }

  datatype Event = StartReport | PatchReport | ConfirmMatch | RejectMatch | ConfirmSubmit | Suspend | Resume | Cancel

  type Qualified = c: Candidate | c.recordId != "" witness Candidate("r", "", "", "")

  datatype Search = Found(best: Qualified) | NothingFound | SearchRaised

  datatype Request = Request(
    event: Event,
    text: string,
    patch: map<string, string>,
    forceNew: bool,
    search: Search,
    now: int,
    timeout: int)

  datatype Action =
    | RequestInformation | RetryMatching | AskConfirmMatch | AskConfirmSubmit
    | Completed | WaitForSync | HandoffQa

  /** A decision, or `InvalidBugAssistantTransition`. */
  datatype Reply = Decided(draft: nat, state: Flow, action: Action, issue: Option<nat>) | Invalid

  predicate Immutable(f: Flow) {
    f == Linked || f == Queued || f == Submitted || f == Abandoned
  }

  function Description(d: Draft): string {
    if DESCRIPTION in d.fields then d.fields[DESCRIPTION] else ""
  }

  // ---------------------------------------------------------------------
  // BugtrackService
  // ---------------------------------------------------------------------

  function Log(d: Draft, kind: EventKind, from: Option<Flow>): Draft {
    d.(events := d.events + [StateEvent(kind, from, d.flow)])
  }

  function Closed(d: Draft, now: int): Draft {
    if d.status == Active || d.closedAt.Some? then d else d.(closedAt := Some(now))
  }

  /** `transition` */
  function Transition(d: Draft, kind: EventKind, flow: Flow, status: Option<Status>, now: int): Draft {
    Log(Closed(d.(flow := flow, status := if status.Some? then status.value else d.status), now), kind, Some(d.flow))
  }

  /** `_find_bound_draft`: the first bound key decides. */
  function FindBound(db: Db, keys: seq<(string, string)>): Option<nat> {
    if keys == [] then None
    else if keys[0] in db.bindings then Some(db.bindings[keys[0]])
    else FindBound(db, keys[1..])
  }

  /** `_upsert_bindings` */
  function Bind(bindings: map<(string, string), nat>, keys: seq<(string, string)>, d: nat): map<(string, string), nat>
    decreases keys
  {
    if keys == [] then bindings else Bind(bindings[keys[0] := d], keys[1..], d)
  }

  /** The field loop of `ensure_draft`: only a nonblank value replaces a field. */
  function Patched(fields: map<string, string>, patch: map<string, string>, names: seq<string>): map<string, string>
    decreases names
  {
    if names == [] then fields
    else if names[0] in patch && !Blank(patch[names[0]]) then
      Patched(fields[names[0] := Strip(patch[names[0]])], patch, names[1..])
    else Patched(fields, patch, names[1..])
  }

  predicate PastDue(d: Draft, now: int) {
    d.status == Active && d.expiresAt <= now
  }

  function Expire(d: Draft, now: int): Draft {
    Log(d.(status := StExpired, flow := Expired, closedAt := Some(now)), DraftExpired, Some(d.flow))
  }

  function Supersede(d: Draft, now: int): Draft {
    Log(d.(status := StSuperseded, flow := Superseded, closedAt := Some(now)), DraftSuperseded, Some(d.flow))
  }

  function NewDraft(now: int, timeout: int): Draft {
    Log(Draft(Active, Collecting, map[], "", NO_CANDIDATE, "", now + timeout, None, None, []), DraftCreated, None)
  }

  /** What becomes of the bound draft when a new one is opened: an overdue one expires first. */
  function Retired(d: Draft, now: int): Draft {
    if PastDue(d, now) then Expire(d, now) else if d.status == Active then Supersede(d, now) else d
  }

  /** `ensure_draft` picks the bound draft or opens a new one ... */
  function PickDraft(db: Db, keys: seq<(string, string)>, forceNew: bool, now: int, timeout: int): (r: (Db, nat))
    requires BoundExists(db, keys)
    ensures r.1 < |r.0.drafts|
  {
    match FindBound(db, keys)
    case None => (db.(drafts := db.drafts + [NewDraft(now, timeout)]), |db.drafts|)
    case Some(i) =>
      if PastDue(db.drafts[i], now) || forceNew then
        (db.(drafts := db.drafts[i := Retired(db.drafts[i], now)] + [NewDraft(now, timeout)]), |db.drafts|)
      else (db, i)
  }

  /** ... then patches, refreshes, binds and records the event. */
  function Touch(d: Draft, patch: map<string, string>, kind: EventKind, now: int, timeout: int): Draft {
    Log(d.(fields := Patched(d.fields, patch, PATCH_FIELDS),
           expiresAt := if d.status == Active then now + timeout else d.expiresAt),
        kind, Some(d.flow))
  }

  predicate BoundExists(db: Db, keys: seq<(string, string)>) {
    FindBound(db, keys).Some? ==> FindBound(db, keys).value < |db.drafts|
  }

  function EnsureDraft(
    db: Db, id: Identity, forceNew: bool, patch: map<string, string>, kind: EventKind, now: int, timeout: int)
    : (r: (Db, nat))
    requires BoundExists(db, Bindings(id))
    ensures r.1 < |r.0.drafts|
  {
    var (db1, i) := PickDraft(db, Bindings(id), forceNew, now, timeout);
    (db1.(drafts := db1.drafts[i := Touch(db1.drafts[i], patch, kind, now, timeout)],
          bindings := Bind(db1.bindings, Bindings(id), i)),
     i)
  }

  // ---------------------------------------------------------------------
  // BugAssistantOrchestrator
  // ---------------------------------------------------------------------

  function Put(db: Db, i: nat, d: Draft): Db
    requires i < |db.drafts|
  {
    db.(drafts := db.drafts[i := d])
  }

  /** A patch message without an explicit description extends the current one. */
  function FullPatch(db: Db, existing: Option<nat>, req: Request): map<string, string>
    requires existing.Some? ==> existing.value < |db.drafts|
  {
    if req.event == PatchReport && existing.Some? && !Blank(req.text)
       && !(DESCRIPTION in req.patch && !Blank(req.patch[DESCRIPTION]))
    then
      var current := Strip(Description(db.drafts[existing.value]));
      req.patch[DESCRIPTION := if current == "" then Strip(req.text) else current + "\n补充：" + Strip(req.text)]
    else req.patch
  }

  /** The draft after the candidate search, or after asking for a description. */
  function Searched(d: Draft, i: nat, search: Search, now: int): (r: (Draft, Reply)) {
    if Blank(Description(d)) then
      (Transition(d, InformationRequired, Collecting, None, now), Decided(i, Collecting, RequestInformation, None))
    else
      var started := Transition(d, SearchStarted, Matching, None, now);
      match search
      case SearchRaised =>
        (Transition(started, SearchFailed, Collecting, None, now), Decided(i, Collecting, RetryMatching, None))
      case Found(best) =>
        (Transition(started.(matchedId := best.recordId, snapshot := best), CandidatePresented, Awaiting, None, now),
         Decided(i, Awaiting, AskConfirmMatch, None))
      case NothingFound =>
        (Transition(started.(matchedId := "", snapshot := NO_CANDIDATE), NoCandidate, Ready, None, now),
         Decided(i, Ready, AskConfirmSubmit, None))
  }

  /** START_REPORT on a finished draft opens a new one. */
  predicate WantsNew(db: Db, existing: Option<nat>, req: Request)
    requires existing.Some? ==> existing.value < |db.drafts|
  {
    req.forceNew
    || (req.event == StartReport && existing.Some?
        && (db.drafts[existing.value].status != Active || Immutable(db.drafts[existing.value].flow)))
  }

  /** The `ensure_draft` call that every collecting event makes. */
  function Collected(db: Db, id: Identity, req: Request): (r: (Db, nat))
    requires BoundExists(db, Bindings(id))
    ensures r.1 < |r.0.drafts|
  {
    var existing := FindBound(db, Bindings(id));
    EnsureDraft(db, id, WantsNew(db, existing, req), FullPatch(db, existing, req),
                if req.event == StartReport then ReportStarted else ReportPatched, req.now, req.timeout)
  }

  function CollectAndMatch(db: Db, id: Identity, req: Request): (r: (Db, Reply))
    requires BoundExists(db, Bindings(id))
  {
    var (db1, i) := Collected(db, id, req);
    if Immutable(db1.drafts[i].flow) then (db, Invalid)
    else
      var (d, reply) := Searched(db1.drafts[i], i, req.search, req.now);
      (Put(db1, i, d), reply)
  }

  /** `_ensure_external_issue`: one issue per external record. */
  function FindFeishu(issues: seq<Issue>, recordId: string): Option<nat> {
    if issues == [] then None
    else
      var n := |issues| - 1;
      var earlier := FindFeishu(issues[..n], recordId);
      if earlier.Some? then earlier
      else if issues[n].source == Feishu && issues[n].externalId == recordId then Some(n) else None
  }

  function EnsureExternalIssue(issues: seq<Issue>, d: Draft): (seq<Issue>, nat) {
    var found := FindFeishu(issues, d.matchedId);
    var status := d.snapshot.status;
    if found.Some? && found.value < |issues| then
      var row := issues[found.value];
      (issues[found.value := row.(snapshot := d.snapshot, status := Or(status, row.status))], found.value)
    else
      (issues + [Issue(Feishu, d.matchedId, Or(status, "unknown"), d.snapshot, None)], |issues|)
  }

  /** `_ensure_report`: the draft's one report is created or rewritten. */
  function EnsureReport(
    reports: map<nat, Report>, draft: nat, issue: nat, status: ReportStatus, link: LinkType, externalId: string,
    submitted: bool, now: int): map<nat, Report>
  {
    var before := if draft in reports then reports[draft].submittedAt else None;
    reports[draft := Report(issue, status, link, externalId,
                            if submitted && before.None? then Some(now) else before)]
  }

  /** `_ensure_subscription`: nobody to notify without a user or session key. */
  function EnsureSubscription(subs: set<Subscriber>, issue: nat, id: Identity): set<Subscriber> {
    var key := Strip(Or(id.userKey, id.sessionId));
    if key == "" then subs else subs + {Subscriber(issue, Strip(Or(id.channel, "unknown")), key)}
  }

  function ReportedIssue(db: Db, i: nat): Option<nat> {
    if i in db.reports then Some(db.reports[i].issue) else None
  }

  function ConfirmMatchStep(db: Db, id: Identity, i: nat, now: int): (r: (Db, Reply))
    requires i < |db.drafts|
  {
    var d := db.drafts[i];
    if d.flow == Linked then (db, Decided(i, d.flow, Completed, ReportedIssue(db, i)))
    else if d.flow != Awaiting || d.matchedId == "" then (db, Invalid)
    else
      var (issues, k) := EnsureExternalIssue(db.issues, d);
      var linked := Transition(d.(submittedAt := if d.submittedAt.None? then Some(now) else d.submittedAt),
                               ExistingLinked, Linked, Some(StSubmitted), now);
      (Put(db, i, linked).(
         issues := issues,
         reports := EnsureReport(db.reports, i, k, RLinked, ConfirmedDuplicate, d.matchedId, true, now),
         subscriptions := EnsureSubscription(db.subscriptions, k, id)),
       Decided(i, Linked, Completed, Some(k)))
  }

  function RejectMatchStep(db: Db, i: nat, now: int): (r: (Db, Reply))
    requires i < |db.drafts|
  {
    var d := db.drafts[i];
    if d.flow != Awaiting then (db, Invalid)
    else
      (Put(db, i, Transition(d.(matchedId := "", snapshot := NO_CANDIDATE), CandidateRejected, Ready, None, now)),
       Decided(i, Ready, AskConfirmSubmit, None))
  }

  /** `prepare_outbox` under the key create_issue_v2:{draft} */
  function PrepareOutbox(outbox: map<nat, Outbox>, draft: nat, issue: nat): map<nat, Outbox> {
    outbox[draft := Outbox(Processing, if draft in outbox then outbox[draft].attempts + 1 else 1, issue)]
  }

  function ConfirmSubmitStep(db: Db, id: Identity, i: nat, now: int): (r: (Db, Reply))
    requires i < |db.drafts|
  {
    var d := db.drafts[i];
    if d.flow == Queued || d.flow == Submitted then (db, Decided(i, d.flow, WaitForSync, ReportedIssue(db, i)))
    else if d.flow != Ready then (db, Invalid)
    else
      var k := |db.issues|;
      (Put(db, i, Transition(d, SubmissionQueued, Queued, Some(Active), now)).(
         issues := db.issues + [Issue(Local, "", "pending_sync", NO_CANDIDATE, Some(i))],
         reports := EnsureReport(db.reports, i, k, RQueued, NewIssue, "", false, now),
         outbox := PrepareOutbox(db.outbox, i, k),
         subscriptions := EnsureSubscription(db.subscriptions, k, id)),
       Decided(i, Queued, WaitForSync, Some(k)))
  }

  function SuspendStep(db: Db, i: nat, now: int): (r: (Db, Reply))
    requires i < |db.drafts|
  {
    var d := db.drafts[i];
    if d.flow == Suspended then (db, Decided(i, Suspended, HandoffQa, None))
    else if Immutable(d.flow) then (db, Invalid)
    else
      (Put(db, i, Transition(d, AssistantSuspended, Suspended, None, now)), Decided(i, Suspended, HandoffQa, None))
  }

  /** The latest `assistant_suspended` event. */
  function LastSuspension(events: seq<StateEvent>): Option<StateEvent> {
    if events == [] then None
    else if events[|events| - 1].kind == AssistantSuspended then Some(events[|events| - 1])
    else LastSuspension(events[..|events| - 1])
  }

  function ResumeTarget(d: Draft): Flow {
    var e := LastSuspension(d.events);
    var previous := if e.Some? && e.value.from.Some? then e.value.from.value else Collecting;
    if previous == Collecting || previous == Matching || previous == Awaiting || previous == Ready
    then previous else Collecting
  }

  function ResumeAction(f: Flow): Action {
    match f
    case Matching => RetryMatching
    case Awaiting => AskConfirmMatch
    case Ready => AskConfirmSubmit
    case _ => RequestInformation
  }

  function ResumeStep(db: Db, i: nat, now: int): (r: (Db, Reply))
    requires i < |db.drafts|
  {
    var d := db.drafts[i];
    if d.flow != Suspended then (db, Invalid)
    else
      var target := ResumeTarget(d);
      (Put(db, i, Transition(d, AssistantResumed, target, None, now)), Decided(i, target, ResumeAction(target), None))
  }

  function CancelStep(db: Db, i: nat, now: int): (r: (Db, Reply))
    requires i < |db.drafts|
  {
    var d := db.drafts[i];
    if d.flow == Abandoned then (db, Decided(i, Abandoned, Completed, None))
    else if Immutable(d.flow) then (db, Invalid)
    else
      (Put(db, i, Transition(d, AssistantAbandoned, Abandoned, Some(StAbandoned), now)),
       Decided(i, Abandoned, Completed, None))
  }

  function Decide(db: Db, id: Identity, i: nat, req: Request): (r: (Db, Reply))
    requires i < |db.drafts|
  {
    match req.event
    case ConfirmMatch => ConfirmMatchStep(db, id, i, req.now)
    case RejectMatch => RejectMatchStep(db, i, req.now)
    case ConfirmSubmit => ConfirmSubmitStep(db, id, i, req.now)
    case Suspend => SuspendStep(db, i, req.now)
    case Resume => ResumeStep(db, i, req.now)
    case _ => CancelStep(db, i, req.now)
  }

  /** A deciding event with a text first records the message on the draft. */
  function Deciding(db: Db, id: Identity, req: Request): (r: (Db, nat))
    requires BoundExists(db, Bindings(id)) && FindBound(db, Bindings(id)).Some?
    ensures r.1 < |r.0.drafts|
  {
    if req.text == "" then (db, FindBound(db, Bindings(id)).value)
    else EnsureDraft(db, id, false, map[], EventReceived, req.now, req.timeout)
  }

  /** A call that raises commits nothing. */
  function OrRollback(db: Db, r: (Db, Reply)): (Db, Reply) {
    if r.1.Invalid? then (db, Invalid) else r
  }

  /** `handle` without an explicit draft id */
  function Handle(db: Db, id: Identity, req: Request): (r: (Db, Reply))
    requires BoundExists(db, Bindings(id))
  {
    if req.event == StartReport || req.event == PatchReport then CollectAndMatch(db, id, req)
    else if FindBound(db, Bindings(id)).None? then (db, Invalid)
    else
      var at := Deciding(db, id, req);
      OrRollback(db, Decide(at.0, id, at.1, req))
  }

  // ---------------------------------------------------------------------
  // What the other services write to a draft
  // ---------------------------------------------------------------------

  /** `add_attachment` of new content: the state stays, the history records it. */
  function Attach(db: Db, i: nat): Db {
    if i < |db.drafts| then Put(db, i, Log(db.drafts[i], AttachmentAdded, Some(db.drafts[i].flow))) else db
  }

  /** What `BugIssueSyncService.sync` needs to find before it does anything. */
  predicate Submitting(db: Db, i: nat) {
    && i < |db.drafts| && i in db.reports && db.reports[i].issue < |db.issues| && i in db.outbox
  }

  /** Its early return: this draft has been synchronized already. */
  predicate Synced(db: Db, i: nat)
    requires Submitting(db, i)
  {
    && db.outbox[i].status == Succeeded
    && db.issues[db.reports[i].issue].externalId != ""
    && db.reports[i].externalId != ""
  }

  function Retried(o: Outbox, status: OutboxStatus): Outbox {
    o.(status := status, attempts := if o.status == Pending then o.attempts + 1 else o.attempts)
  }

  /** The commit of a `sync` that failed. */
  function SyncFailure(db: Db, i: nat, now: int): Db
    requires Submitting(db, i) && !Synced(db, i)
  {
    Put(db, i, Transition(db.drafts[i], SyncFailed, Queued, Some(Active), now)).(
      outbox := db.outbox[i := Retried(db.outbox[i], Pending)])
  }

  type RecordId = s: string | s != "" witness "r"

  /** The commit of a `sync` that wrote the external record. */
  function SyncSuccess(db: Db, i: nat, record: RecordId, now: int): Db
    requires Submitting(db, i) && !Synced(db, i)
  {
    var d := db.drafts[i];
    var r := db.reports[i];
    var issue := db.issues[r.issue];
    Put(db, i, Transition(d.(recordId := record, submittedAt := if d.submittedAt.None? then Some(now) else d.submittedAt),
                          SyncSucceeded, Submitted, Some(StSubmitted), now)).(
      issues := db.issues[r.issue := issue.(externalId := record, status := "submitted",
                                            snapshot := Candidate(record, Description(d), "", ""))],
      reports := db.reports[i := r.(externalId := record, status := RSubmitted,
                                    submittedAt := if r.submittedAt.None? then Some(now) else r.submittedAt)],
      outbox := db.outbox[i := Retried(db.outbox[i], Succeeded)])
  }
}
