/** Runs of one identity: everything its chat, the synchronizer and the attachment store do to its drafts. */
module BugDraftRuns {
  import opened Wrappers
  import opened Text
  import opened BugDrafts
  import opened BugDraftRules
  import opened BugDraftSteps

  datatype Call =
    | Talk(req: Request)
    | AddAttachment(draft: nat)
    | SyncFails(draft: nat, at: int)
    | SyncSucceeds(draft: nat, record: RecordId, at: int)

  /** The database a call commits; a sync that is refused or already done commits nothing. */
  function Apply(db: Db, id: Identity, call: Call): Db
    requires BoundExists(db, Bindings(id))
  {
    match call
    case Talk(req) => Handle(db, id, req).0
    case AddAttachment(i) => Attach(db, i)
    case SyncFails(i, at) => if Submitting(db, i) && !Synced(db, i) then SyncFailure(db, i, at) else db
    case SyncSucceeds(i, record, at) =>
      if Submitting(db, i) && !Synced(db, i) then SyncSuccess(db, i, record, at) else db
  }

  lemma ApplyOk(db: Db, id: Identity, call: Call)
    requires DbOk(db, Bindings(id))
    ensures BoundExists(db, Bindings(id)) && DbOk(Apply(db, id, call), Bindings(id))
  {
    BoundInRange(db, Bindings(id));
    match call
    case Talk(req) => HandleOk(db, id, req);
    case AddAttachment(i) => AttachOk(db, Bindings(id), i);
    case SyncFails(i, at) =>
      if Submitting(db, i) && !Synced(db, i) { SyncFailureOk(db, Bindings(id), i, at); }
    case SyncSucceeds(i, record, at) =>
      if Submitting(db, i) && !Synced(db, i) { SyncSuccessOk(db, Bindings(id), i, record, at); }
  }

  /** One call from a consistent database. */
  ghost function After(db: Db, id: Identity, call: Call): (r: Db)
    requires DbOk(db, Bindings(id))
    ensures BoundExists(db, Bindings(id)) && r == Apply(db, id, call) && DbOk(r, Bindings(id))
  {
    ApplyOk(db, id, call);
    Apply(db, id, call)
  }

  ghost function Run(db: Db, id: Identity, calls: seq<Call>): (r: Db)
    requires DbOk(db, Bindings(id))
    ensures DbOk(r, Bindings(id))
    decreases calls
  {
    if calls == [] then db else Run(After(db, id, calls[0]), id, calls[1..])
  }

  /** The database after a run that starts with nothing. */
  ghost function Reach(id: Identity, calls: seq<Call>): (r: Db)
    ensures DbOk(r, Bindings(id))
  {
    EmptyOk(Bindings(id));
    Run(EMPTY_DB, id, calls)
  }

  /** The state each draft is in after any run, and what it says about the draft's content and history. */
  lemma DraftInvariant(id: Identity, calls: seq<Call>, i: nat)
    requires i < |Reach(id, calls).drafts|
    ensures var d := Reach(id, calls).drafts[i];
      && d.flow != Matching && d.status == StatusOf(d.flow)
      && (d.flow == Awaiting ==> d.matchedId != "")
      && (d.flow == Ready ==> d.matchedId == "")
      && (d.flow in {Awaiting, Ready, Queued, Submitted, Linked} ==> !Blank(Description(d)))
      && (d.flow == Suspended ==>
            && ResumeTarget(d) in {Collecting, Awaiting, Ready}
            && (ResumeTarget(d) == Awaiting ==> d.matchedId != "")
            && (ResumeTarget(d) == Ready ==> d.matchedId == "")
            && (ResumeTarget(d) != Collecting ==> !Blank(Description(d))))
      && d.events != [] && d.events[0].from.None? && d.events[|d.events| - 1].to == d.flow
      && (forall k :: 0 < k < |d.events| ==> d.events[k].from == Some(d.events[k - 1].to))
  {
    var db := Reach(id, calls);
    assert RowOk(db.outbox, db.reports, db.issues, i, db.drafts[i]);
  }

  // ---------------------------------------------------------------------
  // What one call does to an existing draft
  // ---------------------------------------------------------------------

  predicate Final(f: Flow) {
    f == Linked || f == Submitted || f == Abandoned
  }

  /** The history only grows, final states stay, and a suspended draft stays as it was suspended. */
  ghost predicate Evolves(d: Draft, d': Draft) {
    && d.events <= d'.events
    && (Final(d.flow) ==>
          d'.flow == d.flow && d'.status == d.status && d'.matchedId == d.matchedId && d'.recordId == d.recordId)
    && (d.flow == Suspended && d'.flow == Suspended ==>
          ResumeTarget(d') == ResumeTarget(d) && d'.matchedId == d.matchedId && d'.snapshot == d.snapshot)
  }

  lemma TransitionEvolves(d: Draft, changed: Draft, kind: EventKind, flow: Flow, status: Option<Status>, now: int)
    requires changed.events == d.events && !Final(d.flow) && (d.flow != Suspended || flow != Suspended)
    ensures Evolves(d, Transition(changed, kind, flow, status, now))
  {
  }

  lemma TouchEvolves(d: Draft, patch: map<string, string>, kind: EventKind, now: int, timeout: int)
    requires kind != AssistantSuspended
    ensures Evolves(d, Touch(d, patch, kind, now, timeout))
  {
    var t := Touch(d, patch, kind, now, timeout);
    assert t.events[..|t.events| - 1] == d.events;
  }

  lemma SearchedEvolves(d: Draft, i: nat, search: Search, now: int)
    requires !Final(d.flow)
    ensures Evolves(d, Searched(d, i, search, now).0)
  {
    var started := Transition(d, SearchStarted, Matching, None, now);
    assert d.events <= started.events;
  }

  /** What a call keeps of draft `i`: its row evolves, its submission and its issue stay. */
  ghost predicate Keeps(db: Db, db': Db, i: nat)
    requires i < |db.drafts|
  {
    && i < |db'.drafts|
    && Evolves(db.drafts[i], db'.drafts[i])
    && (i in db.outbox ==> i in db'.outbox && db'.outbox[i].issue == db.outbox[i].issue)
    && (i in db.reports ==> i in db'.reports && db'.reports[i].issue == db.reports[i].issue)
    && (Final(db.drafts[i].flow) ==>
          && (i in db'.outbox <==> i in db.outbox) && (i in db'.reports <==> i in db.reports)
          && (i in db.outbox ==> db'.outbox[i] == db.outbox[i])
          && (i in db.reports ==> db'.reports[i] == db.reports[i]))
  }

  lemma KeepsPut(db: Db, i: nat, d: Draft)
    requires i < |db.drafts| && Evolves(db.drafts[i], d)
    ensures forall j: nat | j < |db.drafts| :: Keeps(db, Put(db, i, d), j)
  {
  }

  lemma RetiredEvolves(d: Draft, now: int)
    requires DraftOk(d)
    ensures Evolves(d, Retired(d, now))
  {
  }

  lemma PickKeeps(db: Db, keys: Keys, forceNew: bool, now: int, timeout: int, j: nat)
    requires RowsOk(db) && BoundExists(db, keys) && j < |db.drafts|
    ensures var (db0, i) := PickDraft(db, keys, forceNew, now, timeout);
      && j < |db0.drafts| && Evolves(db.drafts[j], db0.drafts[j]) && (j == i ==> db0.drafts[j] == db.drafts[j])
      && db0.outbox == db.outbox && db0.reports == db.reports && db0.issues == db.issues
      && db0.subscriptions == db.subscriptions
  {
    NeverMatching(db, j);
    RetiredEvolves(db.drafts[j], now);
  }

  lemma EnsureKeeps(
    db: Db, id: Identity, forceNew: bool, patch: map<string, string>, kind: EventKind, now: int, timeout: int, j: nat)
    requires DbOk(db, Bindings(id)) && BoundExists(db, Bindings(id)) && kind != AssistantSuspended && j < |db.drafts|
    ensures var (db1, i) := EnsureDraft(db, id, forceNew, patch, kind, now, timeout);
      && Keeps(db, db1, j) && db1.outbox == db.outbox && db1.reports == db.reports && db1.issues == db.issues
      && db1.subscriptions == db.subscriptions
      && (j == i ==> db1.drafts[j].flow == db.drafts[j].flow)
  {
    PickKeeps(db, Bindings(id), forceNew, now, timeout, j);
    var (db0, i) := PickDraft(db, Bindings(id), forceNew, now, timeout);
    TouchEvolves(db0.drafts[i], patch, kind, now, timeout);
  }

  /** Composition: the first call left the draft's state alone, or the second one did not touch the draft. */
  lemma KeepsThrough(db: Db, db1: Db, db2: Db, j: nat)
    requires j < |db.drafts| && Keeps(db, db1, j) && Keeps(db1, db2, j)
    requires db1.drafts[j].flow == db.drafts[j].flow || db2.drafts[j] == db1.drafts[j]
    ensures Keeps(db, db2, j)
  {
  }

  lemma KeepsThenPut(db: Db, db1: Db, i: nat, d: Draft, j: nat)
    requires j < |db.drafts| && Keeps(db, db1, j) && i < |db1.drafts| && Evolves(db1.drafts[i], d)
    requires j == i ==> db1.drafts[j].flow == db.drafts[j].flow
    ensures Keeps(db, Put(db1, i, d), j)
  {
    KeepsPut(db1, i, d);
    KeepsThrough(db, db1, Put(db1, i, d), j);
  }

  lemma CollectedKeeps(db: Db, id: Identity, req: Request, j: nat)
    requires DbOk(db, Bindings(id)) && BoundExists(db, Bindings(id)) && j < |db.drafts|
    ensures var (db1, i) := Collected(db, id, req);
      Keeps(db, db1, j) && (j == i ==> db1.drafts[j].flow == db.drafts[j].flow)
  {
    var existing := FindBound(db, Bindings(id));
    EnsureKeeps(db, id, WantsNew(db, existing, req), FullPatch(db, existing, req),
                if req.event == StartReport then ReportStarted else ReportPatched, req.now, req.timeout, j);
  }

  lemma CollectKeeps(db: Db, id: Identity, req: Request, j: nat)
    requires DbOk(db, Bindings(id)) && BoundExists(db, Bindings(id)) && j < |db.drafts|
    ensures Keeps(db, CollectAndMatch(db, id, req).0, j)
  {
    CollectedKeeps(db, id, req, j);
    var (db1, i) := Collected(db, id, req);
    if !Immutable(db1.drafts[i].flow) {
      SearchedEvolves(db1.drafts[i], i, req.search, req.now);
      KeepsThenPut(db, db1, i, Searched(db1.drafts[i], i, req.search, req.now).0, j);
    }
  }

  lemma MoveKeeps(db: Db, id: Identity, i: nat, req: Request, j: nat)
    requires i < |db.drafts| && j < |db.drafts| && req.event in {RejectMatch, Suspend, Resume, Cancel}
    ensures Keeps(db, Decide(db, id, i, req).0, j)
    ensures j != i ==> Decide(db, id, i, req).0.drafts[j] == db.drafts[j]
  {
    var d := db.drafts[i];
    var d' := Decide(db, id, i, req).0.drafts[i];
    assert Evolves(d, d') by {
      match req.event {
        case RejectMatch =>
          var cleared := d.(matchedId := "", snapshot := NO_CANDIDATE);
          if d.flow == Awaiting { TransitionEvolves(d, cleared, CandidateRejected, Ready, None, req.now); }
        case Suspend =>
          if d.flow != Suspended && !Immutable(d.flow) {
            TransitionEvolves(d, d, AssistantSuspended, Suspended, None, req.now);
          }
        case Resume =>
          if d.flow == Suspended { TransitionEvolves(d, d, AssistantResumed, ResumeTarget(d), None, req.now); }
        case Cancel =>
          if !Immutable(d.flow) { TransitionEvolves(d, d, AssistantAbandoned, Abandoned, Some(StAbandoned), req.now); }
      }
    }
    KeepsPut(db, i, d');
    assert db.(drafts := db.drafts[i := d]) == db;
  }

  lemma ConfirmMatchKeeps(db: Db, id: Identity, i: nat, now: int, j: nat)
    requires RowsOk(db) && i < |db.drafts| && j < |db.drafts|
    ensures var db1 := ConfirmMatchStep(db, id, i, now).0;
      Keeps(db, db1, j) && (j != i ==> db1.drafts[j] == db.drafts[j])
  {
    var d := db.drafts[i];
    var stamped := d.(submittedAt := if d.submittedAt.None? then Some(now) else d.submittedAt);
    if d.flow == Awaiting {
      FreeOk(db, i, d) by { NeverMatching(db, i); }
      TransitionEvolves(d, stamped, ExistingLinked, Linked, Some(StSubmitted), now);
    }
  }

  lemma ConfirmSubmitKeeps(db: Db, id: Identity, i: nat, now: int, j: nat)
    requires RowsOk(db) && i < |db.drafts| && j < |db.drafts|
    ensures var db1 := ConfirmSubmitStep(db, id, i, now).0;
      Keeps(db, db1, j) && (j != i ==> db1.drafts[j] == db.drafts[j])
  {
    var d := db.drafts[i];
    if d.flow == Ready {
      FreeOk(db, i, d) by { NeverMatching(db, i); }
      TransitionEvolves(d, d, SubmissionQueued, Queued, Some(Active), now);
    }
  }

  lemma DecideKeeps(db: Db, id: Identity, i: nat, req: Request, j: nat)
    requires RowsOk(db) && i < |db.drafts| && j < |db.drafts| && req.event !in {StartReport, PatchReport}
    ensures Keeps(db, Decide(db, id, i, req).0, j)
    ensures j != i ==> Decide(db, id, i, req).0.drafts[j] == db.drafts[j]
  {
    match req.event
    case ConfirmMatch => ConfirmMatchKeeps(db, id, i, req.now, j);
    case ConfirmSubmit => ConfirmSubmitKeeps(db, id, i, req.now, j);
    case _ => MoveKeeps(db, id, i, req, j);
  }

  lemma DecidingKeeps(db: Db, id: Identity, req: Request, j: nat)
    requires DbOk(db, Bindings(id)) && BoundExists(db, Bindings(id)) && FindBound(db, Bindings(id)).Some?
    requires j < |db.drafts|
    ensures var (db1, i) := Deciding(db, id, req);
      Keeps(db, db1, j) && (j == i ==> db1.drafts[j].flow == db.drafts[j].flow)
  {
    if req.text != "" {
      EnsureKeeps(db, id, false, map[], EventReceived, req.now, req.timeout, j);
    }
  }

  lemma DecisionKeeps(db: Db, id: Identity, req: Request, j: nat)
    requires DbOk(db, Bindings(id)) && BoundExists(db, Bindings(id)) && j < |db.drafts|
    requires req.event !in {StartReport, PatchReport} && FindBound(db, Bindings(id)).Some?
    ensures var at := Deciding(db, id, req); Keeps(db, Decide(at.0, id, at.1, req).0, j)
  {
    DecidingOk(db, id, req);
    DecidingKeeps(db, id, req, j);
    var at := Deciding(db, id, req);
    DecideKeeps(at.0, id, at.1, req, j);
    KeepsThrough(db, at.0, Decide(at.0, id, at.1, req).0, j);
  }

  lemma NothingKept(db: Db, j: nat)
    requires j < |db.drafts|
    ensures Keeps(db, db, j)
  {
  }

  lemma HandleKeeps(db: Db, id: Identity, req: Request, j: nat)
    requires DbOk(db, Bindings(id)) && BoundExists(db, Bindings(id)) && j < |db.drafts|
    ensures Keeps(db, Handle(db, id, req).0, j)
  {
    if req.event == StartReport || req.event == PatchReport {
      CollectKeeps(db, id, req, j);
    } else if FindBound(db, Bindings(id)).Some? {
      DecisionKeeps(db, id, req, j);
      NothingKept(db, j);
      var at := Deciding(db, id, req);
      assert Handle(db, id, req) == OrRollback(db, Decide(at.0, id, at.1, req));
    }
  }

  lemma SyncKeeps(db: Db, i: nat, record: RecordId, now: int, j: nat)
    requires RowsOk(db) && Submitting(db, i) && !Synced(db, i) && j < |db.drafts|
    ensures Keeps(db, SyncFailure(db, i, now), j) && Keeps(db, SyncSuccess(db, i, record, now), j)
  {
    var d := db.drafts[i];
    assert RowOk(db.outbox, db.reports, db.issues, i, d);
    TransitionEvolves(d, d, SyncFailed, Queued, Some(Active), now);
    TransitionEvolves(d, d.(recordId := record, submittedAt := if d.submittedAt.None? then Some(now) else d.submittedAt),
                      SyncSucceeded, Submitted, Some(StSubmitted), now);
  }

  lemma AttachKeeps(db: Db, i: nat, j: nat)
    requires j < |db.drafts|
    ensures Keeps(db, Attach(db, i), j)
  {
    if i < |db.drafts| {
      var d := db.drafts[i];
      var t := Log(d, AttachmentAdded, Some(d.flow));
      assert t.events[..|t.events| - 1] == d.events;
    }
  }

  /** One committed call of any service. */
  lemma ApplyKeeps(db: Db, id: Identity, call: Call, j: nat)
    requires DbOk(db, Bindings(id)) && BoundExists(db, Bindings(id)) && j < |db.drafts|
    ensures Keeps(db, Apply(db, id, call), j)
  {
    match call
    case Talk(req) => HandleKeeps(db, id, req, j);
    case AddAttachment(i) => AttachKeeps(db, i, j);
    case SyncFails(i, at) => if Submitting(db, i) && !Synced(db, i) { SyncKeeps(db, i, "r", at, j); }
    case SyncSucceeds(i, record, at) => if Submitting(db, i) && !Synced(db, i) { SyncKeeps(db, i, record, at, j); }
  }

  // ---------------------------------------------------------------------
  // Whole runs
  // ---------------------------------------------------------------------

  /** Histories are never rewritten, only extended. */
  lemma {:induction false} HistoryGrows(db: Db, id: Identity, calls: seq<Call>, i: nat)
    requires DbOk(db, Bindings(id)) && i < |db.drafts|
    ensures i < |Run(db, id, calls).drafts| && db.drafts[i].events <= Run(db, id, calls).drafts[i].events
    decreases calls
  {
    if calls != [] {
      var next := After(db, id, calls[0]);
      ApplyKeeps(db, id, calls[0], i);
      HistoryGrows(next, id, calls[1..], i);
    }
  }

  /** Linked, submitted and abandoned drafts keep their state, report and outbox row for ever. */
  lemma {:induction false} FinalAbsorbs(db: Db, id: Identity, calls: seq<Call>, i: nat)
    requires DbOk(db, Bindings(id)) && i < |db.drafts| && Final(db.drafts[i].flow)
    ensures var after := Run(db, id, calls);
      && i < |after.drafts|
      && after.drafts[i].flow == db.drafts[i].flow && after.drafts[i].status == db.drafts[i].status
      && after.drafts[i].matchedId == db.drafts[i].matchedId && after.drafts[i].recordId == db.drafts[i].recordId
      && (i in after.reports <==> i in db.reports) && (i in db.reports ==> after.reports[i] == db.reports[i])
      && (i in after.outbox <==> i in db.outbox) && (i in db.outbox ==> after.outbox[i] == db.outbox[i])
    decreases calls
  {
    if calls != [] {
      var next := After(db, id, calls[0]);
      ApplyKeeps(db, id, calls[0], i);
      FinalAbsorbs(next, id, calls[1..], i);
    }
  }

  /** A draft that was submitted keeps its outbox row and that row's issue, and is given no other new issue. */
  lemma {:induction false} OneSubmission(db: Db, id: Identity, calls: seq<Call>, i: nat)
    requires DbOk(db, Bindings(id)) && i in db.outbox
    ensures var after := Run(db, id, calls);
      && i in after.outbox && after.outbox[i].issue == db.outbox[i].issue
      && i in after.reports && after.reports[i].issue == db.outbox[i].issue && after.reports[i].link == NewIssue
      && (forall k | 0 <= k < |after.issues| && after.issues[k].source == Local && after.issues[k].origin == Some(i) ::
            k == db.outbox[i].issue)
    decreases calls
  {
    assert RowOk(db.outbox, db.reports, db.issues, i, db.drafts[i]);
    if calls != [] {
      var next := After(db, id, calls[0]);
      ApplyKeeps(db, id, calls[0], i);
      OneSubmission(next, id, calls[1..], i);
    }
  }

  /** A draft never submitted has no new issue at all. */
  lemma NoIssueWithoutSubmission(db: Db, id: Identity, calls: seq<Call>, i: nat)
    requires DbOk(db, Bindings(id)) && i !in Run(db, id, calls).outbox
    ensures forall k | 0 <= k < |Run(db, id, calls).issues| && Run(db, id, calls).issues[k].source == Local ::
      Run(db, id, calls).issues[k].origin != Some(i)
  {
    var after := Run(db, id, calls);
    assert IssuesOk(after.outbox, after.issues);
  }

  /** The identity's bound draft is being talked to before it expires. */
  ghost predicate Bound(db: Db, id: Identity, i: nat, now: int) {
    FindBound(db, Bindings(id)) == Some(i) && i < |db.drafts| && !PastDue(db.drafts[i], now)
  }

  lemma BoundStays(db: Db, id: Identity, req: Request, i: nat)
    requires DbOk(db, Bindings(id)) && Bound(db, id, i, req.now)
    ensures BoundExists(db, Bindings(id)) && Deciding(db, id, req).1 == i
    ensures var db1 := Deciding(db, id, req).0;
      && db1.outbox == db.outbox && db1.reports == db.reports && db1.issues == db.issues
      && db1.subscriptions == db.subscriptions && |db1.drafts| == |db.drafts|
      && db1.drafts[i].flow == db.drafts[i].flow && db1.drafts[i].matchedId == db.drafts[i].matchedId
      && db1.drafts[i].snapshot == db.drafts[i].snapshot && ResumeTarget(db1.drafts[i]) == ResumeTarget(db.drafts[i])
      && db1.drafts[i].status == db.drafts[i].status
  {
    BoundInRange(db, Bindings(id));
    if req.text != "" {
      assert RowOk(db.outbox, db.reports, db.issues, i, db.drafts[i]);
      TouchOk(db.drafts[i], map[], EventReceived, req.now, req.timeout);
    }
  }

  /** A confirmation that moves the draft subscribes exactly the speaker, on its channel, to the issue it answers with. */
  lemma ConfirmSubscribes(db: Db, id: Identity, req: Request, i: nat)
    requires DbOk(db, Bindings(id)) && Bound(db, id, i, req.now)
    requires (req.event == ConfirmSubmit && db.drafts[i].flow == Ready)
             || (req.event == ConfirmMatch && db.drafts[i].flow == Awaiting)
    ensures BoundExists(db, Bindings(id))
    ensures var (db1, reply) := Handle(db, id, req);
      var key := Strip(Or(id.userKey, id.sessionId));
      && reply.Decided? && reply.draft == i && reply.issue.Some?
      && i in db1.reports && db1.reports[i].issue == reply.issue.value
      && db1.subscriptions - db.subscriptions <= {Subscriber(reply.issue.value, Strip(Or(id.channel, "unknown")), key)}
      && db.subscriptions <= db1.subscriptions
      && (Subscriber(reply.issue.value, Strip(Or(id.channel, "unknown")), key) in db1.subscriptions
          || (key == "" && db1.subscriptions == db.subscriptions))
  {
    BoundStays(db, id, req, i);
    assert RowOk(db.outbox, db.reports, db.issues, i, db.drafts[i]);
    var at := Deciding(db, id, req);
    assert Handle(db, id, req) == OrRollback(db, Decide(at.0, id, i, req));
  }

  lemma {:induction false} PatchedSets(
    fields: map<string, string>, patch: map<string, string>, names: seq<string>, n: string)
    requires n in patch && !Blank(patch[n])
    requires n in names || (n in fields && fields[n] == Strip(patch[n]))
    ensures n in Patched(fields, patch, names) && Patched(fields, patch, names)[n] == Strip(patch[n])
    decreases names
  {
    if names != [] {
      if names[0] in patch && !Blank(patch[names[0]]) {
        PatchedSets(fields[names[0] := Strip(patch[names[0]])], patch, names[1..], n);
      } else {
        PatchedSets(fields, patch, names[1..], n);
      }
    }
  }

  function Extended(current: string, text: string): string {
    if current == "" then text else current + "\n补充：" + text
  }

  lemma ExtendedStripped(current: string, text: string)
    requires !Blank(text)
    ensures Strip(Extended(Strip(current), Strip(text))) == Extended(Strip(current), Strip(text))
    ensures !Blank(Extended(Strip(current), Strip(text)))
  {
    StripEnds(current);
    StripEnds(text);
    var e := Extended(Strip(current), Strip(text));
    assert !IsSpace(e[0]) && !IsSpace(e[|e| - 1]);
  }

  /** A supplement extends the description of the bound draft and never replaces it. */
  lemma PatchExtends(db: Db, id: Identity, req: Request, i: nat)
    requires DbOk(db, Bindings(id)) && Bound(db, id, i, req.now)
    requires req.event == PatchReport && !req.forceNew && !Blank(req.text) && DESCRIPTION !in req.patch
    requires !Immutable(db.drafts[i].flow)
    ensures BoundExists(db, Bindings(id))
    ensures var (db1, reply) := Handle(db, id, req);
      && reply.Decided? && reply.draft == i && i < |db1.drafts|
      && Description(db1.drafts[i]) == Extended(Strip(Description(db.drafts[i])), Strip(req.text))
      && (db1.drafts[i].status == Active ==> db1.drafts[i].expiresAt == req.now + req.timeout)
  {
    BoundInRange(db, Bindings(id));
    var d := db.drafts[i];
    ExtendedStripped(Description(d), req.text);
    var patch := FullPatch(db, Some(i), req);
    assert patch[DESCRIPTION] == Extended(Strip(Description(d)), Strip(req.text));
    assert DESCRIPTION == PATCH_FIELDS[1];
    PatchedSets(d.fields, patch, PATCH_FIELDS, DESCRIPTION);
    var (db1, k) := Collected(db, id, req);
    assert k == i && db1.drafts[i] == Touch(d, patch, ReportPatched, req.now, req.timeout);
    SearchedKeepsFields(db1.drafts[i], i, req.search, req.now);
    assert Handle(db, id, req) == (Put(db1, i, Searched(db1.drafts[i], i, req.search, req.now).0),
                                   Searched(db1.drafts[i], i, req.search, req.now).1);
  }

  lemma SearchedKeepsFields(d: Draft, i: nat, search: Search, now: int)
    ensures Searched(d, i, search, now).0.fields == d.fields
    ensures Searched(d, i, search, now).0.expiresAt == d.expiresAt
    ensures Searched(d, i, search, now).1.Decided? && Searched(d, i, search, now).1.draft == i
  {
  }

  /** Confirming again answers with the same issue and adds no row. */
  lemma ConfirmAgain(db: Db, id: Identity, req: Request, i: nat)
    requires DbOk(db, Bindings(id)) && Bound(db, id, i, req.now)
    requires (req.event == ConfirmSubmit && db.drafts[i].flow in {Queued, Submitted})
             || (req.event == ConfirmMatch && db.drafts[i].flow == Linked)
    ensures BoundExists(db, Bindings(id)) && i in db.reports
    ensures var (db1, reply) := Handle(db, id, req);
      && reply.Decided? && reply.draft == i && reply.state == db.drafts[i].flow
      && reply.issue == Some(db.reports[i].issue)
      && db1.issues == db.issues && db1.reports == db.reports && db1.outbox == db.outbox
      && db1.subscriptions == db.subscriptions && |db1.drafts| == |db.drafts|
  {
    BoundStays(db, id, req, i);
    assert RowOk(db.outbox, db.reports, db.issues, i, db.drafts[i]);
  }

  /** The draft stays suspended through every one of the calls. */
  ghost predicate StaysSuspended(db: Db, id: Identity, calls: seq<Call>, i: nat)
    requires DbOk(db, Bindings(id))
    decreases calls
  {
    && i < |db.drafts| && db.drafts[i].flow == Suspended
    && (calls != [] ==> StaysSuspended(After(db, id, calls[0]), id, calls[1..], i))
  }

  lemma {:induction false} SuspensionKept(db: Db, id: Identity, calls: seq<Call>, i: nat)
    requires DbOk(db, Bindings(id)) && StaysSuspended(db, id, calls, i)
    ensures var after := Run(db, id, calls);
      && i < |after.drafts| && after.drafts[i].flow == Suspended
      && ResumeTarget(after.drafts[i]) == ResumeTarget(db.drafts[i])
      && after.drafts[i].matchedId == db.drafts[i].matchedId && after.drafts[i].snapshot == db.drafts[i].snapshot
    decreases calls
  {
    if calls != [] {
      var next := After(db, id, calls[0]);
      ApplyKeeps(db, id, calls[0], i);
      SuspensionKept(next, id, calls[1..], i);
    }
  }

  lemma SuspendStepFrom(db: Db, i: nat, now: int)
    requires i < |db.drafts| && DraftOk(db.drafts[i]) && db.drafts[i].flow in {Collecting, Awaiting, Ready}
    ensures var (db1, reply) := SuspendStep(db, i, now);
      && reply == Decided(i, Suspended, HandoffQa, None)
      && db1.drafts[i].flow == Suspended && ResumeTarget(db1.drafts[i]) == db.drafts[i].flow
      && db1.drafts[i].matchedId == db.drafts[i].matchedId && db1.drafts[i].snapshot == db.drafts[i].snapshot
  {
    SuspendOk(db.drafts[i], now);
  }

  lemma SuspendsFrom(db: Db, id: Identity, req: Request, i: nat)
    requires DbOk(db, Bindings(id)) && Bound(db, id, i, req.now)
    requires req.event == Suspend && db.drafts[i].flow in {Collecting, Awaiting, Ready}
    ensures BoundExists(db, Bindings(id))
    ensures var (db1, reply) := Handle(db, id, req);
      && reply == Decided(i, Suspended, HandoffQa, None)
      && i < |db1.drafts| && db1.drafts[i].flow == Suspended && ResumeTarget(db1.drafts[i]) == db.drafts[i].flow
      && db1.drafts[i].matchedId == db.drafts[i].matchedId && db1.drafts[i].snapshot == db.drafts[i].snapshot
  {
    BoundStays(db, id, req, i);
    DecidingOk(db, id, req);
    var db1 := Deciding(db, id, req).0;
    NeverMatching(db1, i);
    SuspendStepFrom(db1, i, req.now);
    var done := SuspendStep(db1, i, req.now);
    assert Handle(db, id, req) == done;
  }

  lemma ResumesTo(db: Db, id: Identity, req: Request, i: nat)
    requires DbOk(db, Bindings(id)) && Bound(db, id, i, req.now)
    requires req.event == Resume && db.drafts[i].flow == Suspended
    ensures BoundExists(db, Bindings(id))
    ensures var (db1, reply) := Handle(db, id, req);
      && reply == Decided(i, ResumeTarget(db.drafts[i]), ResumeAction(ResumeTarget(db.drafts[i])), None)
      && i < |db1.drafts| && db1.drafts[i].flow == ResumeTarget(db.drafts[i])
      && db1.drafts[i].matchedId == db.drafts[i].matchedId && db1.drafts[i].snapshot == db.drafts[i].snapshot
  {
    BoundStays(db, id, req, i);
  }

  /**
   * RESUME undoes SUSPEND: whatever happened in between, as long as the draft stayed suspended,
   * it comes back to the state it was left in, with the same candidate.
   */
  lemma SuspendResume(db: Db, id: Identity, suspend: Request, calls: seq<Call>, resume: Request, i: nat)
    requires DbOk(db, Bindings(id)) && Bound(db, id, i, suspend.now)
    requires suspend.event == Suspend && db.drafts[i].flow in {Collecting, Awaiting, Ready}
    requires StaysSuspended(After(db, id, Talk(suspend)), id, calls, i)
    requires resume.event == Resume && Bound(Run(After(db, id, Talk(suspend)), id, calls), id, i, resume.now)
    ensures var before := Run(After(db, id, Talk(suspend)), id, calls);
      var resumed := After(before, id, Talk(resume));
      && Handle(before, id, resume).1 == Decided(i, db.drafts[i].flow, ResumeAction(db.drafts[i].flow), None)
      && i < |resumed.drafts| && resumed.drafts[i].flow == db.drafts[i].flow
      && resumed.drafts[i].matchedId == db.drafts[i].matchedId && resumed.drafts[i].snapshot == db.drafts[i].snapshot
  {
    SuspendsFrom(db, id, suspend, i);
    var suspended := After(db, id, Talk(suspend));
    SuspensionKept(suspended, id, calls, i);
    ResumesTo(Run(suspended, id, calls), id, resume, i);
  }

  lemma PickOpens(db: Db, keys: Keys, now: int, timeout: int, i: nat)
    requires RowsOk(db) && FindBound(db, keys) == Some(i) && i < |db.drafts| && Final(db.drafts[i].flow)
    ensures PickDraft(db, keys, true, now, timeout)
      == (db.(drafts := db.drafts + [NewDraft(now, timeout)]), |db.drafts|)
  {
    NeverMatching(db, i);
    assert db.drafts[i := db.drafts[i]] == db.drafts;
  }

  lemma StartOpens(db: Db, id: Identity, req: Request, i: nat)
    requires DbOk(db, Bindings(id)) && FindBound(db, Bindings(id)) == Some(i) && i < |db.drafts|
    requires Final(db.drafts[i].flow) && req.event == StartReport && BoundExists(db, Bindings(id))
    ensures var (db1, k) := Collected(db, id, req);
      && k == |db.drafts| && |db1.drafts| == |db.drafts| + 1
      && db1.drafts[i] == db.drafts[i] && db1.drafts[k].flow == Collecting
      && FindBound(db1, Bindings(id)) == Some(k)
  {
    var keys := Bindings(id);
    PickOpens(db, keys, req.now, req.timeout, i);
    FindBoundIs(db, keys);
    var (db1, k) := Collected(db, id, req);
    BoundAfter(db, keys, k, db1);
  }

  /** START_REPORT on a final draft leaves it untouched and opens a new one. */
  lemma StartAfterFinal(db: Db, id: Identity, req: Request, i: nat)
    requires DbOk(db, Bindings(id)) && FindBound(db, Bindings(id)) == Some(i) && i < |db.drafts|
    requires Final(db.drafts[i].flow) && req.event == StartReport
    ensures BoundExists(db, Bindings(id))
    ensures var (db1, reply) := Handle(db, id, req);
      && reply.Decided? && reply.draft == |db.drafts| && |db1.drafts| == |db.drafts| + 1
      && db1.drafts[i] == db.drafts[i] && FindBound(db1, Bindings(id)) == Some(|db.drafts|)
      && reply.state in {Collecting, Awaiting, Ready}
  {
    BoundInRange(db, Bindings(id));
    StartOpens(db, id, req, i);
    CollectedOk(db, id, req);
    var (db1, k) := Collected(db, id, req);
    NeverMatching(db1, k);
    SearchedOk(db1.drafts[k], k, req.search, req.now);
    var (d, reply) := Searched(db1.drafts[k], k, req.search, req.now);
    assert Handle(db, id, req) == (Put(db1, k, d), reply);
    FindBoundSame(db1, Put(db1, k, d), Bindings(id));
  }
  // ---------------------------------------------------------------------
  // Attempts
  // ---------------------------------------------------------------------

  /** The call commits an attempt to synchronize the draft. */
  predicate Attempts(db: Db, call: Call, i: nat) {
    && (call.SyncFails? || call.SyncSucceeds?) && call.draft == i
    && Submitting(db, i) && !Synced(db, i)
  }

  ghost function AttemptsIn(db: Db, id: Identity, calls: seq<Call>, i: nat): nat
    requires DbOk(db, Bindings(id))
    decreases calls
  {
    if calls == [] then 0
    else (if Attempts(db, calls[0], i) then 1 else 0) + AttemptsIn(After(db, id, calls[0]), id, calls[1..], i)
  }

  /** After `n` attempts the row counts them, the first one from the moment it was prepared. */
  predicate Counted(db: Db, i: nat, n: nat) {
    if i in db.outbox then
      && db.outbox[i].attempts == (if n == 0 then 1 else n)
      && (db.outbox[i].status == Processing <==> n == 0)
    else n == 0
  }

  lemma CollectOutbox(db: Db, id: Identity, req: Request)
    requires BoundExists(db, Bindings(id))
    ensures CollectAndMatch(db, id, req).0.outbox == db.outbox
  {
  }

  lemma DecidingOutbox(db: Db, id: Identity, req: Request)
    requires BoundExists(db, Bindings(id)) && FindBound(db, Bindings(id)).Some?
    ensures Deciding(db, id, req).0.outbox == db.outbox
  {
  }

  lemma TalkKeepsOutbox(db: Db, id: Identity, req: Request, i: nat)
    requires DbOk(db, Bindings(id)) && BoundExists(db, Bindings(id))
    ensures var db1 := Handle(db, id, req).0;
      && (i in db.outbox ==> i in db1.outbox && db1.outbox[i] == db.outbox[i])
      && (i in db1.outbox && i !in db.outbox ==> db1.outbox[i].attempts == 1 && db1.outbox[i].status == Processing)
  {
    if req.event == StartReport || req.event == PatchReport {
      CollectOutbox(db, id, req);
    } else if FindBound(db, Bindings(id)).Some? {
      DecidingOk(db, id, req);
      DecidingOutbox(db, id, req);
      var at := Deciding(db, id, req);
      DecideKeepsOutbox(at.0, id, at.1, req, i);
      assert Handle(db, id, req) == OrRollback(db, Decide(at.0, id, at.1, req));
    }
  }

  lemma DecideKeepsOutbox(db: Db, id: Identity, k: nat, req: Request, i: nat)
    requires RowsOk(db) && k < |db.drafts|
    ensures var db1 := Decide(db, id, k, req).0;
      && (i in db.outbox ==> i in db1.outbox && db1.outbox[i] == db.outbox[i])
      && (i in db1.outbox && i !in db.outbox ==> db1.outbox[i].attempts == 1 && db1.outbox[i].status == Processing)
  {
    assert RowOk(db.outbox, db.reports, db.issues, k, db.drafts[k]);
  }

  lemma SyncCounts(db: Db, call: Call, j: nat, i: nat, n: nat)
    requires RowsOk(db) && Counted(db, i, n) && Submitting(db, j) && !Synced(db, j)
    requires (call.SyncFails? || call.SyncSucceeds?) && call.draft == j
    ensures var db1 := if call.SyncFails? then SyncFailure(db, j, call.at) else SyncSuccess(db, j, call.record, call.at);
      Counted(db1, i, n + if j == i then 1 else 0)
  {
    assert RowOk(db.outbox, db.reports, db.issues, j, db.drafts[j]);
  }

  lemma CountedStep(db: Db, id: Identity, call: Call, i: nat, n: nat)
    requires DbOk(db, Bindings(id)) && Counted(db, i, n)
    ensures Counted(After(db, id, call), i, n + if Attempts(db, call, i) then 1 else 0)
  {
    BoundInRange(db, Bindings(id));
    match call
    case Talk(req) => TalkKeepsOutbox(db, id, req, i);
    case AddAttachment(_) =>
    case _ =>
      if Submitting(db, call.draft) && !Synced(db, call.draft) {
        SyncCounts(db, call, call.draft, i, n);
      }
  }

  lemma {:induction false} CountedRun(db: Db, id: Identity, calls: seq<Call>, i: nat, n: nat)
    requires DbOk(db, Bindings(id)) && Counted(db, i, n)
    ensures Counted(Run(db, id, calls), i, n + AttemptsIn(db, id, calls, i))
    decreases calls
  {
    if calls != [] {
      CountedStep(db, id, calls[0], i, n);
      CountedRun(After(db, id, calls[0]), id, calls[1..], i, n + if Attempts(db, calls[0], i) then 1 else 0);
    }
  }

  /**
   * After every run, an outbox row's counter says how many attempts to synchronize its draft there were, the one it is
   * prepared for included; and the row is being processed exactly until the first of them ends.
   */
  lemma AttemptsCounted(id: Identity, calls: seq<Call>, i: nat)
    ensures DbOk(EMPTY_DB, Bindings(id))
    ensures var db := Reach(id, calls);
      var n := AttemptsIn(EMPTY_DB, id, calls, i);
      && (i !in db.outbox ==> n == 0)
      && (i in db.outbox ==>
            && db.outbox[i].attempts == (if n == 0 then 1 else n)
            && (db.outbox[i].status == Processing <==> n == 0))
  {
    EmptyOk(Bindings(id));
    CountedRun(EMPTY_DB, id, calls, i, 0);
  }
}
