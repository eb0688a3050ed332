/** Every committed call of the assistant and of the services beside it keeps `DbOk`. */
module BugDraftSteps {
  import opened Wrappers
  import opened Text
  import opened BugDrafts
  import opened BugDraftRules

  // ---------------------------------------------------------------------
  // The handlers
  // ---------------------------------------------------------------------

  /** A draft outside the submitted states has neither report nor outbox row, and may move freely among them. */
  lemma FreeOk(db: Db, i: nat, d: Draft)
    requires RowsOk(db) && i < |db.drafts|
    requires db.drafts[i].flow in {Collecting, Awaiting, Ready, Suspended}
    requires DraftOk(d) && d.flow in {Collecting, Awaiting, Ready, Suspended, Abandoned}
    ensures i !in db.outbox && i !in db.reports
    ensures RowOk(db.outbox, db.reports, db.issues, i, d)
  {
    assert RowOk(db.outbox, db.reports, db.issues, i, db.drafts[i]);
  }

  lemma NeverMatching(db: Db, i: nat)
    requires RowsOk(db) && i < |db.drafts|
    ensures db.drafts[i].flow != Matching && DraftOk(db.drafts[i])
  {
    assert RowOk(db.outbox, db.reports, db.issues, i, db.drafts[i]);
  }

  /** The search result lands the draft in a state its content supports. */
  lemma SearchedOk(d: Draft, i: nat, search: Search, now: int)
    requires DraftOk(d) && d.status == Active
    ensures var (d', reply) := Searched(d, i, search, now);
      DraftOk(d') && d'.flow in {Collecting, Awaiting, Ready} && reply.Decided? && reply.draft == i && reply.state == d'.flow
  {
    if !Described(d) {
      TransitionOk(d, d, InformationRequired, Collecting, None, now);
    } else {
      PathLog(d, Closed(d.(flow := Matching), now), SearchStarted);
      var started := Transition(d, SearchStarted, Matching, None, now);
      assert IsPath(started) && Description(started) == Description(d);
      match search {
        case SearchRaised => TransitionOk(started, started, SearchFailed, Collecting, None, now);
        case Found(best) =>
          var changed := started.(matchedId := best.recordId, snapshot := best);
          assert Description(changed.(flow := Awaiting)) == Description(d);
          TransitionOk(started, changed, CandidatePresented, Awaiting, None, now);
        case NothingFound =>
          var cleared := started.(matchedId := "", snapshot := NO_CANDIDATE);
          assert Description(cleared.(flow := Ready)) == Description(d);
          TransitionOk(started, cleared, NoCandidate, Ready, None, now);
      }
    }
  }

  lemma CollectedOk(db: Db, id: Identity, req: Request)
    requires DbOk(db, Bindings(id)) && BoundExists(db, Bindings(id))
    ensures var (db1, i) := Collected(db, id, req); DbOk(db1, Bindings(id)) && IsCurrent(db1, Bindings(id), i)
  {
    var existing := FindBound(db, Bindings(id));
    EnsureOk(db, id, WantsNew(db, existing, req), FullPatch(db, existing, req),
             if req.event == StartReport then ReportStarted else ReportPatched, req.now, req.timeout);
  }

  lemma CollectOk(db: Db, id: Identity, req: Request)
    requires DbOk(db, Bindings(id)) && BoundExists(db, Bindings(id))
    ensures var (db1, reply) := CollectAndMatch(db, id, req);
      && DbOk(db1, Bindings(id))
      && (reply.Decided? ==> IsCurrent(db1, Bindings(id), reply.draft) && db1.drafts[reply.draft].flow == reply.state)
  {
    CollectedOk(db, id, req);
    var (db1, i) := Collected(db, id, req);
    NeverMatching(db1, i);
    if !Immutable(db1.drafts[i].flow) {
      SearchedOk(db1.drafts[i], i, req.search, req.now);
      var d := Searched(db1.drafts[i], i, req.search, req.now).0;
      Moved(db1, Bindings(id), i, d);
    }
  }

  lemma Moved(db: Db, keys: Keys, i: nat, d: Draft)
    requires DbOk(db, keys) && IsCurrent(db, keys, i)
    requires db.drafts[i].flow in {Collecting, Awaiting, Ready, Suspended}
    requires DraftOk(d) && d.flow in {Collecting, Awaiting, Ready, Suspended, Abandoned}
    ensures DbOk(Put(db, i, d), keys) && IsCurrent(Put(db, i, d), keys, i)
  {
    FreeOk(db, i, d);
    PutOk(db, keys, i, d);
  }

  /** What the user is asked to do next: what the state waits for. */
  predicate AsksFor(state: Flow, action: Action) {
    match state
    case Collecting => action == RequestInformation
    case Awaiting => action == AskConfirmMatch
    case Ready => action == AskConfirmSubmit
    case Queued => action == WaitForSync
    case Submitted => action == WaitForSync
    case Linked => action == Completed
    case Abandoned => action == Completed
    case Suspended => action == HandoffQa
    case _ => false
  }

  /** A reply names the issue the draft was reported to, once it was. */
  predicate NamesIssue(db: Db, reply: Reply)
    requires reply.Decided?
  {
    && (reply.state in {Queued, Submitted, Linked} ==>
          reply.draft in db.reports && reply.issue == Some(db.reports[reply.draft].issue))
    && (reply.state !in {Queued, Submitted, Linked} ==> reply.issue == None)
  }

  /** What each handler leaves behind: a consistent database, and a reply about the current draft that fits its state. */
  ghost predicate Stepped(r: (Db, Reply), keys: Keys, i: nat) {
    && DbOk(r.0, keys) && IsCurrent(r.0, keys, i)
    && (r.1.Decided? ==>
          && r.1.draft == i && r.0.drafts[i].flow == r.1.state
          && AsksFor(r.1.state, r.1.action) && NamesIssue(r.0, r.1))
  }

  lemma RejectOk(db: Db, keys: Keys, i: nat, now: int)
    requires DbOk(db, keys) && IsCurrent(db, keys, i)
    ensures Stepped(RejectMatchStep(db, i, now), keys, i)
  {
    NeverMatching(db, i);
    var d := db.drafts[i];
    var cleared := d.(matchedId := "", snapshot := NO_CANDIDATE);
    assert Description(cleared.(flow := Ready)) == Description(d);
    if d.flow == Awaiting {
      TransitionOk(d, cleared, CandidateRejected, Ready, None, now);
      Moved(db, keys, i, Transition(cleared, CandidateRejected, Ready, None, now));
    }
  }

  lemma SuspendedOk(db: Db, keys: Keys, i: nat, now: int)
    requires DbOk(db, keys) && IsCurrent(db, keys, i)
    ensures Stepped(SuspendStep(db, i, now), keys, i)
  {
    NeverMatching(db, i);
    var d := db.drafts[i];
    if d.flow != Suspended && !Immutable(d.flow) {
      SuspendOk(d, now);
      Moved(db, keys, i, Transition(d, AssistantSuspended, Suspended, None, now));
    }
  }

  lemma ResumedOk(db: Db, keys: Keys, i: nat, now: int)
    requires DbOk(db, keys) && IsCurrent(db, keys, i)
    ensures Stepped(ResumeStep(db, i, now), keys, i)
  {
    NeverMatching(db, i);
    var d := db.drafts[i];
    assert Description(d.(flow := ResumeTarget(d))) == Description(d);
    if d.flow == Suspended {
      TransitionOk(d, d, AssistantResumed, ResumeTarget(d), None, now);
      Moved(db, keys, i, Transition(d, AssistantResumed, ResumeTarget(d), None, now));
    }
  }

  lemma CancelledOk(db: Db, keys: Keys, i: nat, now: int)
    requires DbOk(db, keys) && IsCurrent(db, keys, i)
    ensures Stepped(CancelStep(db, i, now), keys, i)
  {
    NeverMatching(db, i);
    var d := db.drafts[i];
    if !Immutable(d.flow) {
      TransitionOk(d, d, AssistantAbandoned, Abandoned, Some(StAbandoned), now);
      Moved(db, keys, i, Transition(d, AssistantAbandoned, Abandoned, Some(StAbandoned), now));
    }
  }

  lemma {:induction false} FindFeishuIs(issues: seq<Issue>, record: string)
    ensures match FindFeishu(issues, record)
      case Some(k) => k < |issues| && issues[k].source == Feishu && issues[k].externalId == record
      case None => forall k | 0 <= k < |issues| :: !(issues[k].source == Feishu && issues[k].externalId == record)
  {
    if issues != [] {
      var n := |issues| - 1;
      FindFeishuIs(issues[..n], record);
      forall k | 0 <= k < n
        ensures issues[k] == issues[..n][k]
      {
      }
    }
  }

  /** Linking finds or makes the one external issue of the record. */
  lemma ExternalIssueOk(outbox: OutboxTable, issues: seq<Issue>, d: Draft)
    requires IssuesOk(outbox, issues)
    ensures var (issues1, k) := EnsureExternalIssue(issues, d);
      && IssuesOk(outbox, issues1)
      && |issues| <= |issues1|
      && (forall j | 0 <= j < |issues| ::
            && issues1[j].source == issues[j].source && issues1[j].origin == issues[j].origin
            && issues1[j].externalId == issues[j].externalId
            && (j != k ==> issues1[j] == issues[j]))
      && k < |issues1| <= |issues| + 1
      && issues1[k].source == Feishu && issues1[k].origin.None? && issues1[k].externalId == d.matchedId
      && issues1[k].snapshot == d.snapshot
      && issues1[k].status == (if d.snapshot.status != "" then d.snapshot.status
                               else if k < |issues| then issues[k].status else "unknown")
  {
    FindFeishuIs(issues, d.matchedId);
  }

  /** A call that rewrites draft `i` and the tables beside it, once the rewritten row is known to be consistent. */
  lemma RewrittenOk(db: Db, db1: Db, keys: Keys, i: nat, d: Draft)
    requires DbOk(db, keys) && i < |db.drafts| && d.flow !in {Expired, Superseded}
    requires db1.drafts == db.drafts[i := d] && db1.bindings == db.bindings
    requires db1.outbox.Keys <= db.outbox.Keys + {i} && db.outbox.Keys <= db1.outbox.Keys
    requires db1.reports.Keys <= db.reports.Keys + {i} && db.reports.Keys <= db1.reports.Keys
    requires forall j | j in db.outbox && j != i :: db1.outbox[j] == db.outbox[j]
    requires forall j | j in db.reports && j != i :: db1.reports[j] == db.reports[j]
    requires |db.issues| <= |db1.issues|
    requires forall k | 0 <= k < |db.issues| ::
      && db1.issues[k].source == db.issues[k].source && db1.issues[k].origin == db.issues[k].origin
      && (db1.issues[k].externalId == db.issues[k].externalId || db.issues[k].origin == Some(i))
      && (db1.issues[k].status == db.issues[k].status || db.issues[k].source == Feishu || db.issues[k].origin == Some(i))
    requires RowOk(db1.outbox, db1.reports, db1.issues, i, d) && IssuesOk(db1.outbox, db1.issues)
    ensures DbOk(db1, keys)
    ensures IsCurrent(db, keys, i) ==> IsCurrent(db1, keys, i)
  {
    forall j: nat | j < |db1.drafts|
      ensures RowOk(db1.outbox, db1.reports, db1.issues, j, db1.drafts[j])
    {
      if j != i {
        RowKept(db, db1, i, j);
      }
    }
    FindBoundSame(db, db1, keys);
  }

  lemma LinkedOk(d: Draft, now: int)
    requires DraftOk(d) && d.flow == Awaiting
    ensures var stamped := d.(submittedAt := if d.submittedAt.None? then Some(now) else d.submittedAt);
      var t := Transition(stamped, ExistingLinked, Linked, Some(StSubmitted), now);
      DraftOk(t) && t.flow == Linked && t.matchedId == d.matchedId
  {
    var stamped := d.(submittedAt := if d.submittedAt.None? then Some(now) else d.submittedAt);
    assert Description(stamped.(flow := Linked)) == Description(d);
    TransitionOk(d, stamped, ExistingLinked, Linked, Some(StSubmitted), now);
  }

  lemma LinkedRows(db: Db, id: Identity, i: nat, now: int)
    requires RowsOk(db) && i < |db.drafts| && db.drafts[i].flow == Awaiting
    ensures var db1 := ConfirmMatchStep(db, id, i, now).0;
      && RowOk(db1.outbox, db1.reports, db1.issues, i, db1.drafts[i])
      && IssuesOk(db1.outbox, db1.issues)
      && i !in db.outbox && i !in db.reports && db1.drafts[i].flow == Linked
  {
    var d := db.drafts[i];
    assert RowOk(db.outbox, db.reports, db.issues, i, d);
    ExternalIssueOk(db.outbox, db.issues, d);
    LinkedOk(d, now);
    FreeOk(db, i, d);
  }

  lemma ConfirmMatchOk(db: Db, id: Identity, i: nat, now: int)
    requires DbOk(db, Bindings(id)) && IsCurrent(db, Bindings(id), i)
    ensures Stepped(ConfirmMatchStep(db, id, i, now), Bindings(id), i)
  {
    var d := db.drafts[i];
    assert RowOk(db.outbox, db.reports, db.issues, i, d);
    if d.flow == Awaiting {
      var db1 := ConfirmMatchStep(db, id, i, now).0;
      LinkedRows(db, id, i, now);
      ExternalIssueOk(db.outbox, db.issues, d);
      RewrittenOk(db, db1, Bindings(id), i, db1.drafts[i]);
    }
  }

  lemma QueuedOk(d: Draft, now: int)
    requires DraftOk(d) && Described(d)
    ensures var t := Transition(d, SubmissionQueued, Queued, Some(Active), now);
      DraftOk(t) && t.flow == Queued && Described(t)
  {
    assert Description(d.(flow := Queued)) == Description(d);
    TransitionOk(d, d, SubmissionQueued, Queued, Some(Active), now);
  }

  lemma SubmittedIssues(db: Db, id: Identity, i: nat, now: int)
    requires RowsOk(db) && i < |db.drafts| && db.drafts[i].flow == Ready && i !in db.outbox
    ensures var db1 := ConfirmSubmitStep(db, id, i, now).0; IssuesOk(db1.outbox, db1.issues)
  {
  }

  lemma SubmittedRows(db: Db, id: Identity, i: nat, now: int)
    requires RowsOk(db) && i < |db.drafts| && db.drafts[i].flow == Ready
    ensures var db1 := ConfirmSubmitStep(db, id, i, now).0;
      && RowOk(db1.outbox, db1.reports, db1.issues, i, db1.drafts[i])
      && IssuesOk(db1.outbox, db1.issues)
      && i !in db.outbox && i !in db.reports
  {
    var d := db.drafts[i];
    assert RowOk(db.outbox, db.reports, db.issues, i, d);
    QueuedOk(d, now);
    FreeOk(db, i, d);
    SubmittedIssues(db, id, i, now);
  }

  lemma ConfirmSubmitOk(db: Db, id: Identity, i: nat, now: int)
    requires DbOk(db, Bindings(id)) && IsCurrent(db, Bindings(id), i)
    ensures Stepped(ConfirmSubmitStep(db, id, i, now), Bindings(id), i)
  {
    if db.drafts[i].flow == Ready {
      var db1 := ConfirmSubmitStep(db, id, i, now).0;
      SubmittedRows(db, id, i, now);
      RewrittenOk(db, db1, Bindings(id), i, db1.drafts[i]);
    }
  }

  lemma DecideOk(db: Db, id: Identity, i: nat, req: Request)
    requires DbOk(db, Bindings(id)) && IsCurrent(db, Bindings(id), i)
    ensures Stepped(Decide(db, id, i, req), Bindings(id), i)
  {
    match req.event
    case ConfirmMatch => ConfirmMatchOk(db, id, i, req.now);
    case ConfirmSubmit => ConfirmSubmitOk(db, id, i, req.now);
    case RejectMatch => RejectOk(db, Bindings(id), i, req.now);
    case Suspend => SuspendedOk(db, Bindings(id), i, req.now);
    case Resume => ResumedOk(db, Bindings(id), i, req.now);
    case _ => CancelledOk(db, Bindings(id), i, req.now);
  }

  /** The draft a deciding event acts on, after the message itself was recorded. */
  lemma DecidingOk(db: Db, id: Identity, req: Request)
    requires DbOk(db, Bindings(id)) && BoundExists(db, Bindings(id)) && FindBound(db, Bindings(id)).Some?
    ensures var (db1, i) := Deciding(db, id, req); DbOk(db1, Bindings(id)) && IsCurrent(db1, Bindings(id), i)
  {
    FindBoundIs(db, Bindings(id));
    if req.text != "" {
      EnsureOk(db, id, false, map[], EventReceived, req.now, req.timeout);
    }
  }

  /** The latest entry of the draft's history is of this kind. */
  predicate Recorded(d: Draft, kind: EventKind) {
    d.events != [] && d.events[|d.events| - 1].kind == kind
  }

  predicate IsCollecting(event: Event) {
    event == StartReport || event == PatchReport
  }

  /**
   * How a collecting event ends: without a description, or when the search raised, the draft keeps collecting, and
   * only in the second case the search is to be tried again; a candidate that was found is stored and offered; and
   * when none was found, none is kept and the report may be submitted.
   */
  predicate Matched(d: Draft, reply: Reply, search: Search)
    requires reply.Decided?
  {
    if !Described(d) then
      reply.state == Collecting && reply.action == RequestInformation && Recorded(d, InformationRequired)
    else match search
      case SearchRaised => reply.state == Collecting && reply.action == RetryMatching && Recorded(d, SearchFailed)
      case Found(best) =>
        && reply.state == Awaiting && reply.action == AskConfirmMatch
        && d.matchedId == best.recordId && d.snapshot == best && Recorded(d, CandidatePresented)
      case NothingFound =>
        && reply.state == Ready && reply.action == AskConfirmSubmit
        && d.matchedId == "" && d.snapshot == NO_CANDIDATE && Recorded(d, NoCandidate)
  }

  /**
   * The reply names the identity's current draft and its state, asks for what that state waits for, and names the
   * issue reported to; a refusal changes nothing.
   */
  ghost predicate Outcome(db: Db, keys: Keys, req: Request, r: (Db, Reply)) {
    && DbOk(r.0, keys)
    && match r.1
       case Decided(i, state, action, _) =>
         && IsCurrent(r.0, keys, i) && r.0.drafts[i].flow == state && NamesIssue(r.0, r.1)
         && (if IsCollecting(req.event) then Matched(r.0.drafts[i], r.1, req.search) else AsksFor(state, action))
       case Invalid => r.0 == db
  }

  lemma CollectedOutcome(db: Db, id: Identity, req: Request)
    requires DbOk(db, Bindings(id)) && BoundExists(db, Bindings(id)) && IsCollecting(req.event)
    ensures Outcome(db, Bindings(id), req, CollectAndMatch(db, id, req))
  {
    CollectOk(db, id, req);
    var (db1, i) := Collected(db, id, req);
    if !Immutable(db1.drafts[i].flow) {
      SearchedMatches(db1.drafts[i], i, req.search, req.now);
    }
  }

  lemma SearchedMatches(d: Draft, i: nat, search: Search, now: int)
    ensures var (d', reply) := Searched(d, i, search, now);
      reply.Decided? && reply.issue == None && Matched(d', reply, search) && reply.state in {Collecting, Awaiting, Ready}
  {
    assert Description(Searched(d, i, search, now).0) == Description(d);
  }

  lemma DecidedOutcome(db: Db, id: Identity, req: Request)
    requires DbOk(db, Bindings(id)) && BoundExists(db, Bindings(id)) && FindBound(db, Bindings(id)).Some?
    requires !IsCollecting(req.event)
    ensures var at := Deciding(db, id, req);
      Outcome(db, Bindings(id), req, OrRollback(db, Decide(at.0, id, at.1, req)))
  {
    DecidingOk(db, id, req);
    var at := Deciding(db, id, req);
    DecideOk(at.0, id, at.1, req);
  }

  /**
   * One call of `handle`: the database stays consistent, and a reply names the identity's current draft, its state and
   * the action the state calls for.
   */
  lemma HandleOk(db: Db, id: Identity, req: Request)
    requires DbOk(db, Bindings(id)) && BoundExists(db, Bindings(id))
    ensures Outcome(db, Bindings(id), req, Handle(db, id, req))
  {
    var r := Handle(db, id, req);
    if IsCollecting(req.event) {
      CollectedOutcome(db, id, req);
      assert r == CollectAndMatch(db, id, req);
    } else if FindBound(db, Bindings(id)).Some? {
      DecidedOutcome(db, id, req);
      var at := Deciding(db, id, req);
      assert r == OrRollback(db, Decide(at.0, id, at.1, req));
    } else {
      assert r == (db, Invalid);
    }
  }

  // ---------------------------------------------------------------------
  // The other services
  // ---------------------------------------------------------------------

  lemma AttachedRow(db: Db, i: nat)
    requires RowsOk(db) && i < |db.drafts|
    ensures var d := db.drafts[i];
      RowOk(db.outbox, db.reports, db.issues, i, Log(d, AttachmentAdded, Some(d.flow)))
  {
    var d := db.drafts[i];
    assert RowOk(db.outbox, db.reports, db.issues, i, d);
    LogOk(d, d, AttachmentAdded);
  }

  /** Attaching records that it happened, and changes nothing else. */
  lemma AttachRecords(db: Db, i: nat)
    requires i < |db.drafts|
    ensures var db1 := Attach(db, i);
      && db1 == db.(drafts := db1.drafts) && |db1.drafts| == |db.drafts|
      && (forall j | 0 <= j < |db.drafts| && j != i :: db1.drafts[j] == db.drafts[j])
      && db1.drafts[i].events == db.drafts[i].events + [StateEvent(AttachmentAdded, Some(db.drafts[i].flow), db.drafts[i].flow)]
      && db1.drafts[i].(events := db.drafts[i].events) == db.drafts[i]
  {
  }

  lemma AttachOk(db: Db, keys: Keys, i: nat)
    requires DbOk(db, keys)
    ensures DbOk(Attach(db, i), keys)
  {
    if i < |db.drafts| {
      AttachedRow(db, i);
      PutOk(db, keys, i, Log(db.drafts[i], AttachmentAdded, Some(db.drafts[i].flow)));
      FindBoundSame(db, Attach(db, i), keys);
    }
  }

  lemma SyncFailureOk(db: Db, keys: Keys, i: nat, now: int)
    requires DbOk(db, keys) && Submitting(db, i) && !Synced(db, i)
    ensures DbOk(SyncFailure(db, i, now), keys)
  {
    var db1 := SyncFailure(db, i, now);
    var d := db.drafts[i];
    assert RowOk(db.outbox, db.reports, db.issues, i, d);
    assert Description(d.(flow := Queued)) == Description(d);
    TransitionOk(d, d, SyncFailed, Queued, Some(Active), now);
    RewrittenOk(db, db1, keys, i, db1.drafts[i]);
  }

  lemma SyncSuccessOk(db: Db, keys: Keys, i: nat, record: RecordId, now: int)
    requires DbOk(db, keys) && Submitting(db, i) && !Synced(db, i)
    ensures DbOk(SyncSuccess(db, i, record, now), keys)
  {
    var db1 := SyncSuccess(db, i, record, now);
    var d := db.drafts[i];
    assert RowOk(db.outbox, db.reports, db.issues, i, d);
    var stamped := d.(recordId := record, submittedAt := if d.submittedAt.None? then Some(now) else d.submittedAt);
    assert Description(stamped) == Description(d) && Description(stamped.(flow := Submitted)) == Description(d);
    TransitionOk(d, stamped, SyncSucceeded, Submitted, Some(StSubmitted), now);
    RewrittenOk(db, db1, keys, i, db1.drafts[i]);
  }
  /** What the commit of a synchronization that worked writes, and that it writes nothing else. */
  lemma SyncSuccessWrites(db: Db, i: nat, record: RecordId, now: int)
    requires RowsOk(db) && Submitting(db, i) && !Synced(db, i)
    ensures var db1 := SyncSuccess(db, i, record, now);
      var d, d1, r1 := db.drafts[i], db1.drafts[i], db1.reports[i];
      && d1.flow == Submitted && d1.status == StSubmitted && d1.recordId == record && d1.fields == d.fields
      && Recorded(d1, SyncSucceeded)
      && (d.closedAt.None? ==> d1.closedAt == Some(now)) && (d.closedAt.Some? ==> d1.closedAt == d.closedAt)
      && (d.submittedAt.None? ==> d1.submittedAt == Some(now)) && (d.submittedAt.Some? ==> d1.submittedAt == d.submittedAt)
      && r1.status == RSubmitted && r1.externalId == record && r1.issue == db.reports[i].issue
      && r1.submittedAt == (if db.reports[i].submittedAt.Some? then db.reports[i].submittedAt else Some(now))
      && db1.issues[r1.issue].externalId == record && db1.issues[r1.issue].status == "submitted"
      && db1.outbox[i].status == Succeeded
      && (forall j | 0 <= j < |db.drafts| && j != i :: db1.drafts[j] == db.drafts[j])
      && (forall k | 0 <= k < |db.issues| && k != r1.issue :: db1.issues[k] == db.issues[k])
      && (forall j | j in db.reports && j != i :: j in db1.reports && db1.reports[j] == db.reports[j])
      && (forall j | j in db.outbox && j != i :: j in db1.outbox && db1.outbox[j] == db.outbox[j])
      && db1.subscriptions == db.subscriptions && db1.bindings == db.bindings
  {
    assert RowOk(db.outbox, db.reports, db.issues, i, db.drafts[i]);
  }

  /** What the commit of one that failed writes: the draft is queued and its outbox row waits; the rest is as it was. */
  lemma SyncFailureWrites(db: Db, i: nat, now: int)
    requires RowsOk(db) && Submitting(db, i) && !Synced(db, i)
    ensures var db1 := SyncFailure(db, i, now);
      && db1.drafts[i].flow == Queued && db1.drafts[i].status == Active && db1.drafts[i].fields == db.drafts[i].fields
      && Recorded(db1.drafts[i], SyncFailed)
      && db1.outbox[i].status == Pending && db1.outbox[i].issue == db.outbox[i].issue
      && (forall j | 0 <= j < |db.drafts| && j != i :: db1.drafts[j] == db.drafts[j])
      && (forall j | j in db.outbox && j != i :: j in db1.outbox && db1.outbox[j] == db.outbox[j])
      && db1.reports == db.reports && db1.issues == db.issues
      && db1.subscriptions == db.subscriptions && db1.bindings == db.bindings
  {
  }
}
