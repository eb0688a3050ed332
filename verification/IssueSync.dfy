/**
 * Synchronizing queued drafts with the external table (app/services/bug_issue_sync_service.py), as a protocol:
 * sync jobs of different drafts interleave with the chat and with each other, a job may die at any await, and a
 * write to the external table may be applied although its call failed, or even after the call gave up.
 *
 * The row lock a job takes on its draft is held to the end of its transaction.
 */
module IssueSync {
  import opened Wrappers
  import opened Text
  import opened BugDrafts
  import opened BugDraftRules
  import opened BugDraftSteps
  import opened BugDraftRuns

  /** One record of the external table and the draft id it carries. */
  datatype Row = Row(id: RecordId, draft: nat)

  datatype Pc =
    | Uploading
    | Searching
    | Writing(found: Option<RecordId>)
    | Wrote(record: RecordId)
    | Failed

  /** `late` holds the drafts of write calls that gave up while the request was still on its way. */
  datatype World = World(db: Db, table: seq<Row>, jobs: map<nat, Pc>, late: seq<nat>)

  datatype Step =
    | Talking(req: Request)
    | Attaching(draft: nat)
    | Begin(draft: nat)
    | Uploaded(draft: nat)
    | UploadRaises(draft: nat)
    | Searched(draft: nat, found: Option<RecordId>)
    | SearchRaises(draft: nat)
    | Updated(draft: nat, ok: bool)
    | Added(draft: nat, record: RecordId)
    | AddRaises(draft: nat)
    | AddAppliedButRaises(draft: nat, record: RecordId)
    | AddGivesUp(draft: nat)
    | Lands(k: nat, record: RecordId)
    | Commit(draft: nat, now: int)
    | Crash(draft: nat)

  const START := World(EMPTY_DB, [], map[], [])

  predicate FreshRecord(w: World, record: RecordId) {
    forall k | 0 <= k < |w.table| :: w.table[k].id != record
  }

  /** A record the search may return: the filter on the draft id only matches that draft's records. */
  predicate Matches(w: World, i: nat, record: RecordId) {
    exists k :: 0 <= k < |w.table| && w.table[k] == Row(record, i)
  }

  predicate Listed(w: World, i: nat) {
    exists k :: 0 <= k < |w.table| && w.table[k].draft == i
  }

  predicate At(w: World, i: nat, pc: Pc) {
    i in w.jobs && w.jobs[i] == pc
  }

  predicate Enabled(w: World, id: Identity, s: Step) {
    match s
    case Talking(req) =>
      // the chat waits for the lock of the draft it is about to use
      && BoundExists(w.db, Bindings(id))
      && (FindBound(w.db, Bindings(id)).Some? ==> FindBound(w.db, Bindings(id)).value !in w.jobs)
    case Attaching(i) => true
    case Begin(i) => i !in w.jobs && Submitting(w.db, i) && !Synced(w.db, i)
    case Uploaded(i) => At(w, i, Uploading)
    case UploadRaises(i) => At(w, i, Uploading)
    case Searched(i, found) => At(w, i, Searching) && (found.Some? ==> Matches(w, i, found.value))
    case SearchRaises(i) => At(w, i, Searching)
    case Updated(i, ok) => i in w.jobs && w.jobs[i].Writing? && w.jobs[i].found.Some?
    case Added(i, record) => At(w, i, Writing(None)) && FreshRecord(w, record)
    case AddRaises(i) => At(w, i, Writing(None))
    case AddAppliedButRaises(i, record) => At(w, i, Writing(None)) && FreshRecord(w, record)
    case AddGivesUp(i) => At(w, i, Writing(None))
    case Lands(k, record) => k < |w.late| && FreshRecord(w, record)
    case Commit(i, now) => i in w.jobs && (w.jobs[i].Wrote? || w.jobs[i].Failed?) && Submitting(w.db, i) && !Synced(w.db, i)
    case Crash(i) => i in w.jobs
  }

  function Next(w: World, id: Identity, s: Step): World
    requires Enabled(w, id, s)
  {
    match s
    case Talking(req) => w.(db := Handle(w.db, id, req).0)
    case Attaching(i) => w.(db := Attach(w.db, i))
    case Begin(i) => w.(jobs := w.jobs[i := Uploading])
    case Uploaded(i) => w.(jobs := w.jobs[i := Searching])
    case UploadRaises(i) => w.(jobs := w.jobs[i := Failed])
    case Searched(i, found) => w.(jobs := w.jobs[i := Writing(found)])
    case SearchRaises(i) => w.(jobs := w.jobs[i := Failed])
    case Updated(i, ok) => w.(jobs := w.jobs[i := if ok then Wrote(w.jobs[i].found.value) else Failed])
    case Added(i, record) => w.(table := w.table + [Row(record, i)], jobs := w.jobs[i := Wrote(record)])
    case AddRaises(i) => w.(jobs := w.jobs[i := Failed])
    case AddAppliedButRaises(i, record) => w.(table := w.table + [Row(record, i)], jobs := w.jobs[i := Failed])
    case AddGivesUp(i) => w.(late := w.late + [i], jobs := w.jobs[i := Failed])
    case Lands(k, record) =>
      w.(table := w.table + [Row(record, w.late[k])], late := w.late[..k] + w.late[k + 1..])
    case Commit(i, now) =>
      w.(db := if w.jobs[i].Wrote? then SyncSuccess(w.db, i, w.jobs[i].record, now) else SyncFailure(w.db, i, now),
         jobs := w.jobs - {i})
    case Crash(i) => w.(jobs := w.jobs - {i})
  }

  ghost predicate Execution(w: World, id: Identity, steps: seq<Step>)
    decreases |steps|
  {
    steps == [] || (Enabled(w, id, steps[0]) && Execution(Next(w, id, steps[0]), id, steps[1..]))
  }

  function Exec(w: World, id: Identity, steps: seq<Step>): World
    requires Execution(w, id, steps)
    decreases |steps|
  {
    if steps == [] then w else Exec(Next(w, id, steps[0]), id, steps[1..])
  }

  /** A search that misses no record of the draft. The client reports some errors as "no records". */
  predicate FaithfulStep(w: World, s: Step) {
    s.Searched? && s.found.None? ==> !Listed(w, s.draft)
  }

  /** No write request outlives the call that made it. */
  predicate PromptStep(s: Step) {
    !s.AddGivesUp?
  }

  ghost predicate Faithful(w: World, id: Identity, steps: seq<Step>)
    requires Execution(w, id, steps)
    decreases |steps|
  {
    steps != [] ==> FaithfulStep(w, steps[0]) && Faithful(Next(w, id, steps[0]), id, steps[1..])
  }

  predicate Prompt(steps: seq<Step>) {
    forall s :: s in steps ==> PromptStep(s)
  }

  // ---------------------------------------------------------------------
  // Invariant
  // ---------------------------------------------------------------------

  ghost predicate OneRowEach(w: World) {
    && (forall k, l | 0 <= k < l < |w.table| :: w.table[k].draft != w.table[l].draft)
    && (forall k, l | 0 <= k < l < |w.table| :: w.table[k].id != w.table[l].id)
  }

  ghost predicate JobOk(w: World, i: nat)
    requires i in w.jobs
  {
    && Submitting(w.db, i) && !Synced(w.db, i)
    && match w.jobs[i]
       case Writing(None) => !Listed(w, i)
       case Writing(Some(record)) => Matches(w, i, record)
       case Wrote(record) => Matches(w, i, record)
       case _ => true
  }

  /** A finished synchronization left its record in the table. */
  ghost predicate DoneOk(w: World) {
    forall i | i in w.db.outbox && i < |w.db.drafts| && w.db.outbox[i].status == Succeeded ::
      w.db.drafts[i].recordId != "" && Matches(w, i, w.db.drafts[i].recordId)
  }

  ghost predicate Inv(w: World, id: Identity) {
    && DbOk(w.db, Bindings(id)) && OneRowEach(w) && w.late == []
    && (forall i | i in w.jobs :: JobOk(w, i))
    && DoneOk(w)
  }

  /** A call of the chat leaves every draft but the bound one alone, with its submission. */
  ghost predicate Untouched(db: Db, db': Db, j: nat) {
    && j < |db.drafts| && j < |db'.drafts| && db'.drafts[j] == db.drafts[j]
    && (j in db'.outbox <==> j in db.outbox) && (j in db.outbox ==> db'.outbox[j] == db.outbox[j])
    && (j in db'.reports <==> j in db.reports) && (j in db.reports ==> db'.reports[j] == db.reports[j])
    && |db.issues| <= |db'.issues|
    && (forall k | 0 <= k < |db.issues| && db.issues[k].source == Local :: db'.issues[k] == db.issues[k])
  }

  lemma EnsureUntouched(
    db: Db, id: Identity, forceNew: bool, patch: map<string, string>, kind: EventKind, now: int, timeout: int, j: nat)
    requires BoundExists(db, Bindings(id)) && j < |db.drafts| && FindBound(db, Bindings(id)) != Some(j)
    ensures var (db1, i) := EnsureDraft(db, id, forceNew, patch, kind, now, timeout);
      Untouched(db, db1, j) && i != j
  {
    var (db0, i) := PickDraft(db, Bindings(id), forceNew, now, timeout);
    assert db0.drafts[j] == db.drafts[j] && i != j;
  }

  lemma LinkUntouched(db: Db, id: Identity, i: nat, now: int, j: nat)
    requires i < |db.drafts| && j < |db.drafts| && i != j
    ensures Untouched(db, ConfirmMatchStep(db, id, i, now).0, j)
  {
    FindFeishuIs(db.issues, db.drafts[i].matchedId);
  }

  lemma QueueUntouched(db: Db, id: Identity, i: nat, now: int, j: nat)
    requires i < |db.drafts| && j < |db.drafts| && i != j
    ensures Untouched(db, ConfirmSubmitStep(db, id, i, now).0, j)
  {
  }

  lemma MoveUntouched(db: Db, i: nat, now: int, j: nat)
    requires i < |db.drafts| && j < |db.drafts| && i != j
    ensures Untouched(db, RejectMatchStep(db, i, now).0, j) && Untouched(db, SuspendStep(db, i, now).0, j)
  {
  }

  lemma LeaveUntouched(db: Db, i: nat, now: int, j: nat)
    requires i < |db.drafts| && j < |db.drafts| && i != j
    ensures Untouched(db, ResumeStep(db, i, now).0, j) && Untouched(db, CancelStep(db, i, now).0, j)
  {
  }

  lemma DecideUntouched(db: Db, id: Identity, i: nat, req: Request, j: nat)
    requires i < |db.drafts| && j < |db.drafts| && i != j
    ensures Untouched(db, Decide(db, id, i, req).0, j)
  {
    LinkUntouched(db, id, i, req.now, j);
    QueueUntouched(db, id, i, req.now, j);
    MoveUntouched(db, i, req.now, j);
    LeaveUntouched(db, i, req.now, j);
  }

  lemma UntouchedThrough(db: Db, db1: Db, db2: Db, j: nat)
    requires Untouched(db, db1, j) && Untouched(db1, db2, j)
    ensures Untouched(db, db2, j)
  {
  }

  lemma CollectUntouched(db: Db, id: Identity, req: Request, j: nat)
    requires BoundExists(db, Bindings(id)) && j < |db.drafts| && FindBound(db, Bindings(id)) != Some(j)
    ensures Untouched(db, CollectAndMatch(db, id, req).0, j)
  {
    var existing := FindBound(db, Bindings(id));
    EnsureUntouched(db, id, WantsNew(db, existing, req), FullPatch(db, existing, req),
                    if req.event == StartReport then ReportStarted else ReportPatched, req.now, req.timeout, j);
    var (db1, i) := Collected(db, id, req);
    var d := BugDrafts.Searched(db1.drafts[i], i, req.search, req.now).0;
    assert Untouched(db1, Put(db1, i, d), j);
    UntouchedThrough(db, db1, Put(db1, i, d), j);
  }

  lemma HandleUntouched(db: Db, id: Identity, req: Request, j: nat)
    requires BoundExists(db, Bindings(id)) && j < |db.drafts| && FindBound(db, Bindings(id)) != Some(j)
    ensures Untouched(db, Handle(db, id, req).0, j)
  {
    if req.event == StartReport || req.event == PatchReport {
      CollectUntouched(db, id, req, j);
    } else if FindBound(db, Bindings(id)).Some? {
      if req.text != "" {
        EnsureUntouched(db, id, false, map[], EventReceived, req.now, req.timeout, j);
      }
      var at := Deciding(db, id, req);
      var done := Decide(at.0, id, at.1, req);
      DecideUntouched(at.0, id, at.1, req, j);
      UntouchedThrough(db, at.0, done.0, j);
      assert Handle(db, id, req) == OrRollback(db, done);
    }
  }

  // ---------------------------------------------------------------------
  // Steps
  // ---------------------------------------------------------------------

  lemma TalkingKeeps(w: World, id: Identity, req: Request)
    requires Inv(w, id) && Enabled(w, id, Talking(req))
    ensures Inv(Next(w, id, Talking(req)), id)
  {
    var w' := Next(w, id, Talking(req));
    HandleOk(w.db, id, req);
    forall i | i in w'.jobs
      ensures JobOk(w', i)
    {
      assert JobOk(w, i);
      assert RowOk(w.db.outbox, w.db.reports, w.db.issues, i, w.db.drafts[i]);
      HandleUntouched(w.db, id, req, i);
    }
    TalkingKeepsDone(w, id, req);
  }

  lemma TalkingKeepsDone(w: World, id: Identity, req: Request)
    requires Inv(w, id) && Enabled(w, id, Talking(req)) && DbOk(Next(w, id, Talking(req)).db, Bindings(id))
    ensures DoneOk(Next(w, id, Talking(req)))
  {
    var w' := Next(w, id, Talking(req));
    forall i | i in w'.db.outbox && i < |w'.db.drafts| && w'.db.outbox[i].status == Succeeded
      ensures w'.db.drafts[i].recordId != "" && Matches(w', i, w'.db.drafts[i].recordId)
    {
      HandleDone(w.db, id, req, i);
      assert Matches(w, i, w.db.drafts[i].recordId);
    }
  }

  /** The chat never marks an outbox row succeeded. */
  lemma HandleDone(db: Db, id: Identity, req: Request, i: nat)
    requires DbOk(db, Bindings(id)) && BoundExists(db, Bindings(id))
    requires var db1 := Handle(db, id, req).0;
      DbOk(db1, Bindings(id)) && i in db1.outbox && i < |db1.drafts| && db1.outbox[i].status == Succeeded
    ensures i in db.outbox && i < |db.drafts| && db.outbox[i].status == Succeeded
    ensures Handle(db, id, req).0.drafts[i].recordId == db.drafts[i].recordId
  {
    HandleOutbox(db, id, req, i);
    HandleKeeps(db, id, req, i);
    assert RowOk(db.outbox, db.reports, db.issues, i, db.drafts[i]);
  }

  lemma HandleOutbox(db: Db, id: Identity, req: Request, i: nat)
    requires DbOk(db, Bindings(id)) && BoundExists(db, Bindings(id))
    requires i in Handle(db, id, req).0.outbox && Handle(db, id, req).0.outbox[i].status == Succeeded
    ensures i in db.outbox && db.outbox[i] == Handle(db, id, req).0.outbox[i]
  {
    if req.event == StartReport || req.event == PatchReport {
      CollectOutbox(db, id, req);
    } else if FindBound(db, Bindings(id)).Some? {
      var at := Deciding(db, id, req);
      assert at.0.outbox == db.outbox;
      var done := Decide(at.0, id, at.1, req);
      assert Handle(db, id, req) == OrRollback(db, done);
      if done.1.Decided? {
        DecideOutbox(at.0, id, at.1, req, i);
      }
    }
  }

  lemma DecideOutbox(db: Db, id: Identity, k: nat, req: Request, i: nat)
    requires k < |db.drafts|
    requires i in Decide(db, id, k, req).0.outbox && Decide(db, id, k, req).0.outbox[i].status == Succeeded
    ensures i in db.outbox && db.outbox[i] == Decide(db, id, k, req).0.outbox[i]
  {
  }

  lemma AttachingKeeps(w: World, id: Identity, i: nat)
    requires Inv(w, id)
    ensures Inv(Next(w, id, Attaching(i)), id)
  {
    var w' := Next(w, id, Attaching(i));
    AttachOk(w.db, Bindings(id), i);
    forall j | j in w'.jobs
      ensures JobOk(w', j)
    {
      assert JobOk(w, j);
    }
    forall j | j in w'.db.outbox && j < |w'.db.drafts| && w'.db.outbox[j].status == Succeeded
      ensures w'.db.drafts[j].recordId != "" && Matches(w', j, w'.db.drafts[j].recordId)
    {
      assert Matches(w, j, w.db.drafts[j].recordId);
    }
  }

  /** Steps inside a job that leave the database and the table alone. */
  lemma InnerKeeps(w: World, w': World, id: Identity, i: nat)
    requires Inv(w, id) && w'.db == w.db && w'.table == w.table && w'.late == w.late
    requires w'.jobs.Keys <= w.jobs.Keys + {i}
    requires forall j | j in w'.jobs && j != i :: w'.jobs[j] == w.jobs[j]
    requires i in w'.jobs ==> JobOk(w', i)
    ensures Inv(w', id)
  {
    forall j | j in w'.jobs
      ensures JobOk(w', j)
    {
      if j != i {
        assert JobOk(w, j);
      }
    }
    forall j | j in w'.db.outbox && j < |w'.db.drafts| && w'.db.outbox[j].status == Succeeded
      ensures w'.db.drafts[j].recordId != "" && Matches(w', j, w'.db.drafts[j].recordId)
    {
      assert Matches(w, j, w.db.drafts[j].recordId);
    }
  }

  lemma RowsGrow(w: World, w': World, record: RecordId, i: nat)
    requires w'.table == w.table + [Row(record, i)]
    ensures forall j: nat, r: RecordId :: Matches(w, j, r) ==> Matches(w', j, r)
    ensures Matches(w', i, record)
    ensures forall j: nat :: j != i && !Listed(w, j) ==> !Listed(w', j)
  {
    assert w'.table[|w.table|] == Row(record, i);
    forall j: nat, r: RecordId | Matches(w, j, r)
      ensures Matches(w', j, r)
    {
      var k :| 0 <= k < |w.table| && w.table[k] == Row(r, j);
      assert w'.table[k] == Row(r, j);
    }
  }

  lemma AddingKeepsRows(w: World, w': World, i: nat, record: RecordId)
    requires OneRowEach(w) && !Listed(w, i) && FreshRecord(w, record) && w'.table == w.table + [Row(record, i)]
    ensures OneRowEach(w')
  {
  }

  /** Jobs and finished drafts survive a new record of a draft that had none. */
  lemma AddingKeepsOthers(w: World, w': World, i: nat, record: RecordId)
    requires (forall j | j in w.jobs :: JobOk(w, j)) && DoneOk(w)
    requires w'.db == w.db && w'.table == w.table + [Row(record, i)]
    requires w'.jobs.Keys == w.jobs.Keys && i in w.jobs && (w'.jobs[i] == Failed || w'.jobs[i] == Wrote(record))
    requires forall j | j in w.jobs && j != i :: w'.jobs[j] == w.jobs[j]
    ensures (forall j | j in w'.jobs :: JobOk(w', j)) && DoneOk(w')
  {
    RowsGrow(w, w', record, i);
    forall j | j in w'.jobs
      ensures JobOk(w', j)
    {
      assert JobOk(w, j);
    }
  }

  /** A record is added only by the draft's own job, after the search found none. */
  lemma AddingKeeps(w: World, id: Identity, i: nat, record: RecordId, pc: Pc)
    requires Inv(w, id) && At(w, i, Writing(None)) && FreshRecord(w, record)
    requires pc == Wrote(record) || pc == Failed
    ensures Inv(w.(table := w.table + [Row(record, i)], jobs := w.jobs[i := pc]), id)
  {
    var w' := w.(table := w.table + [Row(record, i)], jobs := w.jobs[i := pc]);
    assert JobOk(w, i);
    AddingKeepsRows(w, w', i, record);
    AddingKeepsOthers(w, w', i, record);
  }

  lemma SyncOutbox(db: Db, i: nat, record: RecordId, now: int)
    requires Submitting(db, i) && !Synced(db, i)
    ensures forall j | j in db.outbox && j != i ::
      && SyncFailure(db, i, now).outbox[j] == db.outbox[j] && SyncSuccess(db, i, record, now).outbox[j] == db.outbox[j]
    ensures SyncFailure(db, i, now).outbox[i].status == Pending && SyncSuccess(db, i, record, now).outbox[i].status == Succeeded
    ensures SyncSuccess(db, i, record, now).drafts[i].recordId == record
  {
  }

  lemma FailureUntouched(db: Db, i: nat, now: int, j: nat)
    requires RowsOk(db) && Submitting(db, i) && !Synced(db, i) && Submitting(db, j) && i != j
    ensures Submitting(SyncFailure(db, i, now), j)
    ensures Synced(SyncFailure(db, i, now), j) <==> Synced(db, j)
  {
  }

  lemma SuccessUntouched(db: Db, i: nat, record: RecordId, now: int, j: nat)
    requires RowsOk(db) && Submitting(db, i) && !Synced(db, i) && Submitting(db, j) && i != j
    ensures Submitting(SyncSuccess(db, i, record, now), j)
    ensures Synced(SyncSuccess(db, i, record, now), j) <==> Synced(db, j)
  {
    assert RowOk(db.outbox, db.reports, db.issues, i, db.drafts[i]);
    assert RowOk(db.outbox, db.reports, db.issues, j, db.drafts[j]);
  }

  lemma CommittedDbOk(w: World, id: Identity, i: nat, now: int)
    requires Inv(w, id) && Enabled(w, id, Commit(i, now))
    ensures DbOk(Next(w, id, Commit(i, now)).db, Bindings(id))
  {
    if w.jobs[i].Wrote? {
      SyncSuccessOk(w.db, Bindings(id), i, w.jobs[i].record, now);
    } else {
      SyncFailureOk(w.db, Bindings(id), i, now);
    }
  }

  lemma JobKept(w: World, w': World, j: nat)
    requires j in w.jobs && JobOk(w, j) && j in w'.jobs && w'.jobs[j] == w.jobs[j] && w'.table == w.table
    requires Submitting(w'.db, j) && !Synced(w'.db, j)
    ensures JobOk(w', j)
  {
  }

  lemma CommittedJobsOk(w: World, id: Identity, i: nat, now: int, j: nat)
    requires RowsOk(w.db) && Enabled(w, id, Commit(i, now)) && j in w.jobs && JobOk(w, j) && j != i
    ensures JobOk(Next(w, id, Commit(i, now)), j)
  {
    var w' := Next(w, id, Commit(i, now));
    assert Submitting(w'.db, j) && !Synced(w'.db, j) by {
      if w.jobs[i].Wrote? {
        SuccessUntouched(w.db, i, w.jobs[i].record, now, j);
      } else {
        FailureUntouched(w.db, i, now, j);
      }
    }
    JobKept(w, w', j);
  }

  lemma SyncDrafts(db: Db, i: nat, record: RecordId, now: int)
    requires Submitting(db, i) && !Synced(db, i)
    ensures |SyncFailure(db, i, now).drafts| == |SyncSuccess(db, i, record, now).drafts| == |db.drafts|
    ensures SyncFailure(db, i, now).outbox.Keys == SyncSuccess(db, i, record, now).outbox.Keys == db.outbox.Keys
    ensures forall j | 0 <= j < |db.drafts| && j != i ::
      && SyncFailure(db, i, now).drafts[j] == db.drafts[j] && SyncSuccess(db, i, record, now).drafts[j] == db.drafts[j]
  {
  }

  lemma CommittedOther(w: World, id: Identity, i: nat, now: int, j: nat)
    requires Enabled(w, id, Commit(i, now)) && j != i
    requires var db' := Next(w, id, Commit(i, now)).db;
      j in db'.outbox && j < |db'.drafts| && db'.outbox[j].status == Succeeded
    ensures j in w.db.outbox && w.db.outbox[j].status == Succeeded
    ensures j < |w.db.drafts| && Next(w, id, Commit(i, now)).db.drafts[j] == w.db.drafts[j]
  {
    var record := if w.jobs[i].Wrote? then w.jobs[i].record else "r";
    SyncOutbox(w.db, i, record, now);
    SyncDrafts(w.db, i, record, now);
  }

  lemma CommittedOwn(w: World, id: Identity, i: nat, now: int)
    requires Enabled(w, id, Commit(i, now)) && JobOk(w, i)
    requires var db' := Next(w, id, Commit(i, now)).db; i in db'.outbox && db'.outbox[i].status == Succeeded
    ensures var w' := Next(w, id, Commit(i, now));
      i < |w'.db.drafts| && w'.db.drafts[i].recordId != "" && Matches(w', i, w'.db.drafts[i].recordId)
  {
    SyncOutbox(w.db, i, if w.jobs[i].Wrote? then w.jobs[i].record else "r", now);
    assert w.jobs[i].Wrote? && Matches(w, i, w.jobs[i].record);
  }

  lemma CommittedDoneOk(w: World, id: Identity, i: nat, now: int)
    requires Inv(w, id) && Enabled(w, id, Commit(i, now))
    ensures DoneOk(Next(w, id, Commit(i, now)))
  {
    var w' := Next(w, id, Commit(i, now));
    forall j | j in w'.db.outbox && j < |w'.db.drafts| && w'.db.outbox[j].status == Succeeded
      ensures w'.db.drafts[j].recordId != "" && Matches(w', j, w'.db.drafts[j].recordId)
    {
      if j == i {
        assert JobOk(w, i);
        CommittedOwn(w, id, i, now);
      } else {
        CommittedOther(w, id, i, now, j);
        assert Matches(w, j, w.db.drafts[j].recordId);
      }
    }
  }

  lemma CommitKeeps(w: World, id: Identity, i: nat, now: int)
    requires Inv(w, id) && Enabled(w, id, Commit(i, now))
    ensures Inv(Next(w, id, Commit(i, now)), id)
  {
    CommittedDbOk(w, id, i, now);
    CommittedDoneOk(w, id, i, now);
    forall j | j in w.jobs && j != i
      ensures JobOk(Next(w, id, Commit(i, now)), j)
    {
      assert JobOk(w, j);
      CommittedJobsOk(w, id, i, now, j);
    }
  }

  lemma StepKeeps(w: World, id: Identity, s: Step)
    requires Inv(w, id) && Enabled(w, id, s) && FaithfulStep(w, s) && PromptStep(s)
    ensures Inv(Next(w, id, s), id)
  {
    match s {
      case Talking(req) => TalkingKeeps(w, id, req);
      case Attaching(i) => AttachingKeeps(w, id, i);
      case Added(i, record) => AddingKeeps(w, id, i, record, Wrote(record));
      case AddAppliedButRaises(i, record) => AddingKeeps(w, id, i, record, Failed);
      case AddGivesUp(i) =>
      case Lands(k, record) =>
      case Commit(i, now) => CommitKeeps(w, id, i, now);
      case Begin(i) => InnerKeeps(w, Next(w, id, s), id, i);
      case _ => CallKeeps(w, id, s);
    }
  }

  /** Uploads, searches, updates, failing adds and crashes. */
  lemma CallKeeps(w: World, id: Identity, s: Step)
    requires Inv(w, id) && Enabled(w, id, s) && FaithfulStep(w, s)
    requires s.Uploaded? || s.UploadRaises? || s.Searched? || s.SearchRaises? || s.Updated? || s.AddRaises? || s.Crash?
    ensures Inv(Next(w, id, s), id)
  {
    assert s.draft in w.jobs && JobOk(w, s.draft);
    InnerKeeps(w, Next(w, id, s), id, s.draft);
  }

  lemma {:induction false} SyncInvariant(w: World, id: Identity, steps: seq<Step>)
    requires Inv(w, id) && Execution(w, id, steps) && Faithful(w, id, steps) && Prompt(steps)
    ensures Inv(Exec(w, id, steps), id)
    decreases |steps|
  {
    if steps != [] {
      StepKeeps(w, id, steps[0]);
      SyncInvariant(Next(w, id, steps[0]), id, steps[1..]);
    }
  }

  /**
   * Whatever the interleaving of jobs, crashes and failing calls: a draft has at most one external record, and once
   * its outbox row says succeeded it has exactly one, whose id the draft, the report and the issue all hold, and all
   * three are submitted.
   */
  lemma ExactlyOne(id: Identity, steps: seq<Step>, i: nat)
    requires Execution(START, id, steps) && Faithful(START, id, steps) && Prompt(steps)
    ensures var w := Exec(START, id, steps);
      && (forall k, l | 0 <= k < |w.table| && 0 <= l < |w.table| && w.table[k].draft == w.table[l].draft == i :: k == l)
      && (i in w.db.outbox && w.db.outbox[i].status == Succeeded ==>
            && i in w.db.reports && i < |w.db.drafts| && w.db.reports[i].issue < |w.db.issues|
            && w.db.drafts[i].flow == Submitted && w.db.reports[i].status == RSubmitted
            && w.db.issues[w.db.reports[i].issue].status == "submitted"
            && w.db.drafts[i].recordId == w.db.reports[i].externalId
            && w.db.drafts[i].recordId == w.db.issues[w.db.reports[i].issue].externalId
            && w.db.drafts[i].recordId != "" && Matches(w, i, w.db.drafts[i].recordId))
  {
    EmptyOk(Bindings(id));
    SyncInvariant(START, id, steps);
    var w := Exec(START, id, steps);
    if i in w.db.outbox {
      assert RowOk(w.db.outbox, w.db.reports, w.db.issues, i, w.db.drafts[i]);
    }
  }

  /** A job that has finished its calls can always commit: nobody else has moved the draft it holds. */
  lemma CommitNeverBlocked(id: Identity, steps: seq<Step>, i: nat, now: int)
    requires Execution(START, id, steps) && Faithful(START, id, steps) && Prompt(steps)
    requires var w := Exec(START, id, steps); i in w.jobs && (w.jobs[i].Wrote? || w.jobs[i].Failed?)
    ensures Enabled(Exec(START, id, steps), id, Commit(i, now))
  {
    EmptyOk(Bindings(id));
    SyncInvariant(START, id, steps);
    assert JobOk(Exec(START, id, steps), i);
  }

  // ---------------------------------------------------------------------
  // Why both assumptions are there
  // ---------------------------------------------------------------------

  /** A draft that is queued, with no job of its own running, no record yet, and two record ids still unused. */
  ghost predicate Retriable(w: World, id: Identity, i: nat, a: RecordId, b: RecordId) {
    && Inv(w, id) && i !in w.jobs && Submitting(w.db, i) && !Synced(w.db, i)
    && !Listed(w, i) && FreshRecord(w, a) && FreshRecord(w, b) && a != b
  }

  ghost predicate Duplicated(w: World, i: nat) {
    exists k, l | 0 <= k < l < |w.table| :: w.table[k].draft == i && w.table[l].draft == i
  }

  lemma FailureLeavesRetriable(db: Db, i: nat, now: int)
    requires RowsOk(db) && Submitting(db, i) && !Synced(db, i)
    ensures Submitting(SyncFailure(db, i, now), i) && !Synced(SyncFailure(db, i, now), i)
  {
  }

  ghost predicate Leads(w: World, id: Identity, steps: seq<Step>, end: World) {
    Execution(w, id, steps) && Exec(w, id, steps) == end
  }

  lemma Chain(w: World, id: Identity, s: Step, rest: seq<Step>, end: World)
    requires Enabled(w, id, s) && Leads(Next(w, id, s), id, rest, end)
    ensures Leads(w, id, [s] + rest, end)
    ensures Faithful(Next(w, id, s), id, rest) && FaithfulStep(w, s) ==> Faithful(w, id, [s] + rest)
  {
    assert ([s] + rest)[0] == s && ([s] + rest)[1..] == rest;
  }

  /** A sync job up to and including the step `s` after a search that found nothing, then whatever follows. */
  function Attempt(i: nat, s: Step, rest: seq<Step>): seq<Step> {
    [Begin(i)] + ([Uploaded(i)] + ([Step.Searched(i, None)] + ([s] + rest)))
  }

  lemma AttemptLeads(w: World, id: Identity, i: nat, s: Step, rest: seq<Step>, end: World)
    requires i !in w.jobs && Submitting(w.db, i) && !Synced(w.db, i)
    requires var w1 := w.(jobs := w.jobs[i := Writing(None)]);
      Enabled(w1, id, s) && Leads(Next(w1, id, s), id, rest, end)
    ensures Leads(w, id, Attempt(i, s, rest), end)
    ensures var w1 := w.(jobs := w.jobs[i := Writing(None)]);
      !Listed(w, i) && !s.Searched? && Faithful(Next(w1, id, s), id, rest) ==> Faithful(w, id, Attempt(i, s, rest))
  {
    var started := w.(jobs := w.jobs[i := Uploading]);
    var uploaded := w.(jobs := w.jobs[i := Searching]);
    var searched := w.(jobs := w.jobs[i := Writing(None)]);
    assert started.jobs[i := Searching] == uploaded.jobs;
    assert uploaded.jobs[i := Writing(None)] == searched.jobs;
    Chain(searched, id, s, rest, end);
    Chain(uploaded, id, Step.Searched(i, None), [s] + rest, end);
    Chain(started, id, Uploaded(i), [Step.Searched(i, None)] + ([s] + rest), end);
    Chain(w, id, Begin(i), [Uploaded(i)] + ([Step.Searched(i, None)] + ([s] + rest)), end);
  }

  lemma AttemptIsPrompt(i: nat, s: Step, rest: seq<Step>)
    requires PromptStep(s) && Prompt(rest)
    ensures Prompt(Attempt(i, s, rest))
  {
  }

  /** A failed attempt commits its failure, and the draft may be tried again. */
  lemma FailureLeads(
    w: World, id: Identity, i: nat, s: Step, failed: World, now: int, retry: World, rest: seq<Step>, end: World)
    requires i !in w.jobs && Submitting(w.db, i) && !Synced(w.db, i)
    requires failed == w.(table := failed.table, late := failed.late, jobs := w.jobs[i := Failed])
    requires retry == failed.(db := SyncFailure(w.db, i, now), jobs := w.jobs)
    requires var w1 := w.(jobs := w.jobs[i := Writing(None)]); Enabled(w1, id, s) && Next(w1, id, s) == failed
    requires Leads(retry, id, rest, end)
    ensures Leads(w, id, Attempt(i, s, [Commit(i, now)] + rest), end)
    ensures !Listed(w, i) && !s.Searched? && Faithful(retry, id, rest) ==>
      Faithful(w, id, Attempt(i, s, [Commit(i, now)] + rest))
  {
    assert failed.jobs - {i} == w.jobs;
    assert Next(failed, id, Commit(i, now)) == retry;
    Chain(failed, id, Commit(i, now), rest, end);
    AttemptLeads(w, id, i, s, [Commit(i, now)] + rest, end);
  }

  lemma AddedLeads(w: World, id: Identity, i: nat, b: RecordId, end: World)
    requires i !in w.jobs && Submitting(w.db, i) && !Synced(w.db, i) && FreshRecord(w, b)
    requires end == w.(table := w.table + [Row(b, i)], jobs := w.jobs[i := Wrote(b)])
    ensures Leads(w, id, Attempt(i, Added(i, b), []), end)
  {
    assert w.jobs[i := Writing(None)][i := Wrote(b)] == end.jobs;
    AttemptLeads(w, id, i, Added(i, b), [], end);
  }

  lemma AppliedFails(w: World, id: Identity, i: nat, a: RecordId, failed: World)
    requires FreshRecord(w, a) && failed == w.(table := w.table + [Row(a, i)], jobs := w.jobs[i := Failed])
    ensures var w1 := w.(jobs := w.jobs[i := Writing(None)]);
      Enabled(w1, id, AddAppliedButRaises(i, a)) && Next(w1, id, AddAppliedButRaises(i, a)) == failed
  {
    assert w.jobs[i := Writing(None)][i := Failed] == failed.jobs;
  }

  /** The retry of a draft whose first write was applied but failed, after a search that missed the record. */
  lemma AppliedLeads(w: World, id: Identity, i: nat, a: RecordId, b: RecordId, now: int)
    returns (steps: seq<Step>, end: World)
    requires Retriable(w, id, i, a, b)
    ensures Leads(w, id, steps, end) && Prompt(steps)
    ensures end.table == w.table + [Row(a, i)] + [Row(b, i)]
  {
    FailureLeavesRetriable(w.db, i, now);
    var failed := w.(table := w.table + [Row(a, i)], jobs := w.jobs[i := Failed]);
    var retry := failed.(db := SyncFailure(w.db, i, now), jobs := w.jobs);
    end := retry.(table := retry.table + [Row(b, i)], jobs := retry.jobs[i := Wrote(b)]);
    var again := Attempt(i, Added(i, b), []);
    AddedLeads(retry, id, i, b, end);
    AppliedFails(w, id, i, a, failed);
    FailureLeads(w, id, i, AddAppliedButRaises(i, a), failed, now, retry, again, end);
    steps := Attempt(i, AddAppliedButRaises(i, a), [Commit(i, now)] + again);
    AttemptIsPrompt(i, Added(i, b), []);
    AttemptIsPrompt(i, AddAppliedButRaises(i, a), [Commit(i, now)] + again);
  }

  /** The retry of a draft whose first request is still on its way, which then lands. */
  lemma RetryThenLands(w: World, id: Identity, i: nat, a: RecordId, b: RecordId, end: World)
    requires i !in w.jobs && Submitting(w.db, i) && !Synced(w.db, i) && !Listed(w, i)
    requires w.late == [i] && FreshRecord(w, a) && FreshRecord(w, b) && a != b
    requires end == w.(table := w.table + [Row(b, i)] + [Row(a, i)], jobs := w.jobs[i := Wrote(b)], late := [])
    ensures Leads(w, id, Attempt(i, Added(i, b), [Lands(0, a)]), end)
    ensures Faithful(w, id, Attempt(i, Added(i, b), [Lands(0, a)]))
  {
    var added := w.(table := w.table + [Row(b, i)], jobs := w.jobs[i := Wrote(b)]);
    assert Next(added, id, Lands(0, a)) == end;
    Chain(added, id, Lands(0, a), [], end);
    assert [Lands(0, a)] + [] == [Lands(0, a)];
    assert w.jobs[i := Writing(None)][i := Wrote(b)] == added.jobs;
    AttemptLeads(w, id, i, Added(i, b), [Lands(0, a)], end);
  }

  lemma GivenUpLeads(w: World, id: Identity, i: nat, a: RecordId, b: RecordId, now: int)
    returns (steps: seq<Step>, end: World)
    requires Retriable(w, id, i, a, b)
    ensures Leads(w, id, steps, end) && Faithful(w, id, steps)
    ensures end.table == w.table + [Row(b, i)] + [Row(a, i)]
  {
    FailureLeavesRetriable(w.db, i, now);
    var failed := w.(late := [i], jobs := w.jobs[i := Failed]);
    var retry := failed.(db := SyncFailure(w.db, i, now), jobs := w.jobs);
    end := retry.(table := w.table + [Row(b, i)] + [Row(a, i)], jobs := w.jobs[i := Wrote(b)], late := []);
    RetryThenLands(retry, id, i, a, b, end);
    assert w.jobs[i := Writing(None)][i := Failed] == failed.jobs;
    var again := Attempt(i, Added(i, b), [Lands(0, a)]);
    FailureLeads(w, id, i, AddGivesUp(i), failed, now, retry, again, end);
    steps := Attempt(i, AddGivesUp(i), [Commit(i, now)] + again);
  }

  lemma TwoRows(w: World, rows: seq<Row>, a: RecordId, b: RecordId, i: nat)
    requires w.table == rows + [Row(a, i)] + [Row(b, i)]
    ensures Duplicated(w, i)
  {
    assert w.table[|rows|] == Row(a, i) && w.table[|rows| + 1] == Row(b, i);
  }

  lemma ReportGetsReady(id: Identity, req: Request)
    requires Bindings(id) != [] && BoundExists(EMPTY_DB, Bindings(id))
    requires req.event == StartReport && req.search == NothingFound
    requires req.patch.Keys == {DESCRIPTION} && !Blank(req.patch[DESCRIPTION])
    ensures var ready := Handle(EMPTY_DB, id, req).0;
      && |ready.drafts| == 1 && ready.drafts[0].flow == Ready
      && ready.issues == [] && ready.reports == map[] && ready.outbox == map[]
      && FindBound(ready, Bindings(id)) == Some(0)
  {
    var keys := Bindings(id);
    FindBoundIs(EMPTY_DB, keys);
    var (db1, i) := Collected(EMPTY_DB, id, req);
    BoundAfter(EMPTY_DB, keys, 0, db1);
    StripTwice(req.patch[DESCRIPTION]);
    PatchSets(map[], req.patch);
    assert Description(db1.drafts[0]) == Strip(req.patch[DESCRIPTION]);
    var ready := Put(db1, 0, BugDrafts.Searched(db1.drafts[0], 0, NothingFound, req.now).0);
    assert Handle(EMPTY_DB, id, req).0 == ready;
    FindBoundSame(db1, ready, keys);
  }

  /** A report with a description, for which the search finds no duplicate, and its confirmation. */
  predicate ReportAndConfirm(id: Identity, req: Request, confirm: Request) {
    && Bindings(id) != []
    && req.event == StartReport && req.search == NothingFound
    && req.patch.Keys == {DESCRIPTION} && !Blank(req.patch[DESCRIPTION])
    && confirm.event == ConfirmSubmit && confirm.text == ""
  }

  lemma ConfirmQueues(db: Db, id: Identity, confirm: Request)
    requires FindBound(db, Bindings(id)) == Some(0) && BoundExists(db, Bindings(id))
    requires |db.drafts| == 1 && db.drafts[0].flow == Ready
    requires db.issues == [] && db.reports == map[] && db.outbox == map[]
    requires confirm.event == ConfirmSubmit && confirm.text == ""
    ensures var queued := Handle(db, id, confirm).0;
      Submitting(queued, 0) && !Synced(queued, 0) && queued.drafts[0].flow == Queued
  {
    assert Handle(db, id, confirm) == ConfirmSubmitStep(db, id, 0, confirm.now);
  }

  lemma ReportGetsQueued(id: Identity, req: Request, confirm: Request)
    requires ReportAndConfirm(id, req, confirm)
    ensures BoundExists(EMPTY_DB, Bindings(id))
    ensures var ready := Handle(EMPTY_DB, id, req).0;
      && BoundExists(ready, Bindings(id))
      && var queued := Handle(ready, id, confirm).0;
         && Submitting(queued, 0) && !Synced(queued, 0) && queued.drafts[0].flow == Queued
  {
    FindBoundIs(EMPTY_DB, Bindings(id));
    ReportGetsReady(id, req);
    var ready := Handle(EMPTY_DB, id, req).0;
    FindBoundIs(ready, Bindings(id));
    ConfirmQueues(ready, id, confirm);
  }

  /** The world after the two calls. */
  function Reported(id: Identity, req: Request, confirm: Request): World
    requires BoundExists(EMPTY_DB, Bindings(id)) && BoundExists(Handle(EMPTY_DB, id, req).0, Bindings(id))
  {
    World(Handle(Handle(EMPTY_DB, id, req).0, id, confirm).0, [], map[], [])
  }

  lemma ReportLeads(id: Identity, req: Request, confirm: Request)
    requires ReportAndConfirm(id, req, confirm)
    ensures BoundExists(EMPTY_DB, Bindings(id)) && BoundExists(Handle(EMPTY_DB, id, req).0, Bindings(id))
    ensures Leads(START, id, [Talking(req)] + [Talking(confirm)], Reported(id, req, confirm))
    ensures Faithful(START, id, [Talking(req)] + [Talking(confirm)])
  {
    ReportGetsQueued(id, req, confirm);
    var ready, queued := START.(db := Handle(EMPTY_DB, id, req).0), Reported(id, req, confirm);
    assert Leads(queued, id, [], queued);
    Chain(ready, id, Talking(confirm), [], queued);
    assert [Talking(confirm)] + [] == [Talking(confirm)];
    Chain(START, id, Talking(req), [Talking(confirm)], queued);
  }

  lemma ReportRetriable(id: Identity, req: Request, confirm: Request, a: RecordId, b: RecordId)
    requires ReportAndConfirm(id, req, confirm) && a != b
    ensures BoundExists(EMPTY_DB, Bindings(id)) && BoundExists(Handle(EMPTY_DB, id, req).0, Bindings(id))
    ensures Retriable(Reported(id, req, confirm), id, 0, a, b)
  {
    ReportLeads(id, req, confirm);
    EmptyOk(Bindings(id));
    SyncInvariant(START, id, [Talking(req)] + [Talking(confirm)]);
    ReportGetsQueued(id, req, confirm);
  }

  lemma {:induction false} ThenLeads(w: World, id: Identity, steps: seq<Step>, mid: World, rest: seq<Step>, end: World)
    requires Leads(w, id, steps, mid) && Leads(mid, id, rest, end)
    ensures Leads(w, id, steps + rest, end)
    ensures Faithful(w, id, steps) && Faithful(mid, id, rest) ==> Faithful(w, id, steps + rest)
    decreases |steps|
  {
    if steps == [] {
      assert steps + rest == rest;
    } else {
      ThenLeads(Next(w, id, steps[0]), id, steps[1..], mid, rest, end);
      Chain(w, id, steps[0], steps[1..] + rest, end);
      assert [steps[0]] + (steps[1..] + rest) == steps + rest;
    }
  }

  lemma AppliedThenRetried(
    w: World, id: Identity, steps: seq<Step>, mid: World, i: nat, a: RecordId, b: RecordId, now: int)
    requires Leads(w, id, steps, mid) && Prompt(steps) && Retriable(mid, id, i, a, b)
    ensures exists all :: Execution(w, id, all) && Prompt(all) && Duplicated(Exec(w, id, all), i)
  {
    var rest, end := AppliedLeads(mid, id, i, a, b, now);
    ThenLeads(w, id, steps, mid, rest, end);
    TwoRows(end, mid.table, a, b, i);
    assert Prompt(steps + rest);
  }

  lemma GivenUpThenRetried(
    w: World, id: Identity, steps: seq<Step>, mid: World, i: nat, a: RecordId, b: RecordId, now: int)
    requires Leads(w, id, steps, mid) && Faithful(w, id, steps) && Retriable(mid, id, i, a, b)
    ensures exists all :: Execution(w, id, all) && Faithful(w, id, all) && Duplicated(Exec(w, id, all), i)
  {
    var rest, end := GivenUpLeads(mid, id, i, a, b, now);
    ThenLeads(w, id, steps, mid, rest, end);
    TwoRows(end, mid.table, b, a, i);
    assert Faithful(w, id, steps + rest);
  }

  /** From the empty world: a search error reported as "no records" makes the retry add a second record. */
  lemma SwallowedSearchDuplicates(id: Identity, req: Request, confirm: Request, a: RecordId, b: RecordId, now: int)
    requires ReportAndConfirm(id, req, confirm) && a != b
    ensures exists all :: Execution(START, id, all) && Prompt(all) && Duplicated(Exec(START, id, all), 0)
  {
    ReportLeads(id, req, confirm);
    ReportRetriable(id, req, confirm, a, b);
    AppliedThenRetried(
      START, id, [Talking(req)] + [Talking(confirm)], Reported(id, req, confirm), 0, a, b, now);
  }

  /** From the empty world: a request that lands after its call gave up makes a faithful retry add a second record. */
  lemma LateWriteDuplicates(id: Identity, req: Request, confirm: Request, a: RecordId, b: RecordId, now: int)
    requires ReportAndConfirm(id, req, confirm) && a != b
    ensures exists all :: Execution(START, id, all) && Faithful(START, id, all) && Duplicated(Exec(START, id, all), 0)
  {
    ReportLeads(id, req, confirm);
    ReportRetriable(id, req, confirm, a, b);
    GivenUpThenRetried(
      START, id, [Talking(req)] + [Talking(confirm)], Reported(id, req, confirm), 0, a, b, now);
  }

  lemma PatchSkips(fields: map<string, string>, patch: map<string, string>, names: seq<string>)
    requires forall n :: n in names ==> n !in patch
    ensures Patched(fields, patch, names) == fields
    decreases names
  {
    if names != [] {
      PatchSkips(fields, patch, names[1..]);
    }
  }

  lemma PatchSets(fields: map<string, string>, patch: map<string, string>)
    requires patch.Keys == {DESCRIPTION} && !Blank(patch[DESCRIPTION])
    ensures Patched(fields, patch, PATCH_FIELDS) == fields[DESCRIPTION := Strip(patch[DESCRIPTION])]
  {
    var rest := ["environment", "issue_type", "search_keyword"];
    assert |"module"| == 6 && |DESCRIPTION| == 21 && |rest[0]| == 11 && |rest[1]| == 10 && |rest[2]| == 14;
    assert PATCH_FIELDS[1..] == [DESCRIPTION] + rest && ([DESCRIPTION] + rest)[1..] == rest;
    PatchSkips(fields[DESCRIPTION := Strip(patch[DESCRIPTION])], patch, rest);
    assert Patched(fields, patch, PATCH_FIELDS) == Patched(fields, patch, [DESCRIPTION] + rest);
  }
}
