/**
 * One `sync` call from start to end, with its attachment upload loop, as the job of `IssueSync` runs it when
 * nothing interleaves. What the external service answers is a parameter.
 */
module IssueSyncService {
  import opened Wrappers
  import opened BugDrafts
  import opened BugAssistant
  import opened IssueSync

  // ---------------------------------------------------------------------
  // Attachments
  // ---------------------------------------------------------------------

  datatype FileStatus = Staged | FileSynced | FileFailed

  datatype Attachment = Attachment(token: string, status: FileStatus)

  /** What an attempt leaves: the attachment rows, the tokens gathered, and whether every upload worked. */
  datatype Uploads = Uploads(files: seq<Attachment>, tokens: seq<string>, ok: bool)

  /** An attachment that has a token is not uploaded again; the first failing upload ends the attempt. */
  function Upload(files: seq<Attachment>, answers: seq<Option<RecordId>>): (r: Uploads)
    requires |answers| == |files|
    ensures |r.files| == |files|
    ensures |r.tokens| <= |files|
  {
    if files == [] then Uploads([], [], true)
    else if files[0].token != "" then
      var rest := Upload(files[1..], answers[1..]);
      Uploads([files[0]] + rest.files, [files[0].token] + rest.tokens, rest.ok)
    else
      match answers[0]
      case None => Uploads([files[0].(status := FileFailed)] + files[1..], [], false)
      case Some(token) =>
        var rest := Upload(files[1..], answers[1..]);
        Uploads([Attachment(token, FileSynced)] + rest.files, [token] + rest.tokens, rest.ok)
  }

  lemma {:induction false} SentTokens(files: seq<Attachment>, answers: seq<Option<RecordId>>)
    requires |answers| == |files| && Upload(files, answers).ok
    ensures var r := Upload(files, answers);
      |r.tokens| == |files| && forall k | 0 <= k < |files| :: r.files[k].token == r.tokens[k] != ""
    decreases files
  {
    if files != [] {
      SentTokens(files[1..], answers[1..]);
    }
  }

  /** An attempt succeeds exactly when no upload it needs fails; then every attachment has the token that is sent. */
  lemma {:induction false} UploadSucceeds(files: seq<Attachment>, answers: seq<Option<RecordId>>)
    requires |answers| == |files|
    ensures var r := Upload(files, answers);
      && (r.ok <==> forall k | 0 <= k < |files| && files[k].token == "" :: answers[k].Some?)
      && (r.ok ==> |r.tokens| == |files| && forall k | 0 <= k < |files| :: r.files[k].token == r.tokens[k] != "")
    decreases files
  {
    if Upload(files, answers).ok {
      SentTokens(files, answers);
    }
    if files != [] {
      UploadSucceeds(files[1..], answers[1..]);
      assert forall k | 0 < k < |files| :: files[k] == files[1..][k - 1] && answers[k] == answers[1..][k - 1];
      if exists k :: 0 <= k < |files[1..]| && files[1..][k].token == "" && answers[1..][k].None? {
        var k :| 0 <= k < |files[1..]| && files[1..][k].token == "" && answers[1..][k].None?;
        assert files[k + 1].token == "" && answers[k + 1].None?;
      }
    }
  }

  /** The attempt has to upload attachment `k`, and the upload fails. */
  predicate FailsAt(files: seq<Attachment>, answers: seq<Option<RecordId>>, k: nat)
    requires |answers| == |files|
  {
    k < |files| && files[k].token == "" && answers[k].None?
  }

  /**
   * What becomes of each attachment, `first` being the first one whose upload fails or their number: those before it
   * have a token, uploaded now if they had none and then synchronized, otherwise untouched; it is marked failed; and
   * those after it are untouched. The tokens sent are those before it, in order.
   */
  lemma {:induction false} UploadMarks(files: seq<Attachment>, answers: seq<Option<RecordId>>, first: nat)
    requires |answers| == |files| && first <= |files| && (first < |files| ==> FailsAt(files, answers, first))
    requires forall k | 0 <= k < first :: !FailsAt(files, answers, k)
    ensures var r := Upload(files, answers);
      && |r.tokens| == first && (r.ok <==> first == |files|)
      && (forall k | 0 <= k < first ::
            && r.tokens[k] == r.files[k].token
            && (files[k].token != "" ==> r.files[k] == files[k])
            && (files[k].token == "" ==> answers[k].Some? && r.files[k] == Attachment(answers[k].value, FileSynced)))
      && (first < |files| ==> r.files[first] == Attachment("", FileFailed))
      && (forall k | first < k < |files| :: r.files[k] == files[k])
    decreases files
  {
    if files != [] && first > 0 {
      var rest := Upload(files[1..], answers[1..]);
      assert forall k | 0 <= k < first - 1 :: !FailsAt(files[1..], answers[1..], k) <==> !FailsAt(files, answers, k + 1);
      UploadMarks(files[1..], answers[1..], first - 1);
      var r := Upload(files, answers);
      assert !FailsAt(files, answers, 0);
      assert r.files[1..] == rest.files && r.tokens[1..] == rest.tokens;
      forall k | 0 < k < |files|
        ensures r.files[k] == rest.files[k - 1] && files[k] == files[1..][k - 1] && answers[k] == answers[1..][k - 1]
      {
      }
    }
  }

  /** No attempt, failed or not, gives up a token it has. */
  lemma {:induction false} UploadKeepsTokens(files: seq<Attachment>, answers: seq<Option<RecordId>>, k: nat)
    requires |answers| == |files| && k < |files| && files[k].token != ""
    ensures Upload(files, answers).files[k] == files[k]
    decreases files
  {
    if k > 0 {
      var r := Upload(files, answers);
      if files[0].token != "" || answers[0].Some? {
        UploadKeepsTokens(files[1..], answers[1..], k - 1);
        assert r.files[k] == Upload(files[1..], answers[1..]).files[k - 1];
      }
    }
  }

  /** After a successful attempt another one sends the same tokens and uploads nothing, whatever the answers. */
  lemma UploadOnce(files: seq<Attachment>, answers: seq<Option<RecordId>>, later: seq<Option<RecordId>>)
    requires |answers| == |files| == |later| && Upload(files, answers).ok
    ensures Upload(Upload(files, answers).files, later) == Upload(files, answers)
  {
    var r := Upload(files, answers);
    UploadSucceeds(files, answers);
    UploadSucceeds(r.files, later);
    var again := Upload(r.files, later);
    forall k | 0 <= k < |files|
      ensures again.files[k] == r.files[k]
    {
      UploadKeepsTokens(r.files, later, k);
    }
    assert again.files == r.files && again.tokens == r.tokens;
  }

  /** What remains of an attempt after the attachments in `done`. */
  ghost predicate Remains(
    goal: Uploads, done: seq<Attachment>, tokens: seq<string>, left: seq<Attachment>, answers: seq<Option<RecordId>>)
  {
    && |answers| == |left|
    && var rest := Upload(left, answers);
       goal == Uploads(done + rest.files, tokens + rest.tokens, rest.ok)
  }

  lemma Advance(
    goal: Uploads, done: seq<Attachment>, tokens: seq<string>, left: seq<Attachment>, answers: seq<Option<RecordId>>)
    requires Remains(goal, done, tokens, left, answers) && left != []
    ensures left[0].token != "" ==> Remains(goal, done + [left[0]], tokens + [left[0].token], left[1..], answers[1..])
    ensures left[0].token == "" && answers[0].Some? ==>
      Remains(goal, done + [Attachment(answers[0].value, FileSynced)], tokens + [answers[0].value], left[1..], answers[1..])
    ensures left[0].token == "" && answers[0].None? ==>
      goal == Uploads(done + [left[0].(status := FileFailed)] + left[1..], tokens, false)
  {
    var rest := Upload(left[1..], answers[1..]);
    var head := if left[0].token != "" || answers[0].None? then left[0] else Attachment(answers[0].value, FileSynced);
    assert done + ([head] + rest.files) == (done + [head]) + rest.files;
    assert tokens + ([head.token] + rest.tokens) == (tokens + [head.token]) + rest.tokens;
    var failed := left[0].(status := FileFailed);
    assert done + ([failed] + left[1..]) == done + [failed] + left[1..] && tokens + [] == tokens;
  }

  // ---------------------------------------------------------------------
  // One attempt
  // ---------------------------------------------------------------------

  datatype SearchAnswer = Records(found: Option<RecordId>) | SearchError

  datatype AddAnswer = NewRecord(record: RecordId) | NotApplied | AppliedButError(record: RecordId)

  datatype Answers = Answers(uploads: seq<Option<RecordId>>, search: SearchAnswer, updated: bool, add: AddAnswer)

  datatype SyncReply = Refused | AlreadyDone(known: string) | Synchronized(record: RecordId, attachments: nat) | SyncError

  /** The record an attempt ends up with, when its calls work. */
  function Written(a: Answers): Option<RecordId> {
    match a.search
    case SearchError => None
    case Records(Some(found)) => if a.updated then Some(found) else None
    case Records(None) => if a.add.NewRecord? then Some(a.add.record) else None
  }

  /** What it adds to the external table, whether or not the call says so. */
  function Additions(i: nat, a: Answers): seq<Row> {
    if a.search == Records(None) && !a.add.NotApplied? then [Row(a.add.record, i)] else []
  }

  /** The last call of an attempt, when the search was answered, and the commit. */
  function WriteSteps(i: nat, a: Answers, now: int): seq<Step>
    requires a.search.Records?
  {
    if a.search.found.Some? then [Updated(i, a.updated)] + [Commit(i, now)]
    else match a.add
      case NewRecord(record) => [Added(i, record)] + [Commit(i, now)]
      case NotApplied => [AddRaises(i)] + [Commit(i, now)]
      case AppliedButError(record) => [AddAppliedButRaises(i, record)] + [Commit(i, now)]
  }

  /** The database and the external table after an attempt that got past its early returns. */
  function Attempted(db: Db, table: seq<Row>, i: nat, uploaded: bool, a: Answers, now: int): (Db, seq<Row>)
    requires Submitting(db, i) && !Synced(db, i)
  {
    if !uploaded then (SyncFailure(db, i, now), table)
    else (if Written(a).Some? then SyncSuccess(db, i, Written(a).value, now) else SyncFailure(db, i, now),
          table + Additions(i, a))
  }

  /**
   * How an attempt ends, by what the external service answered: the draft is submitted, under the record found or the
   * one added, exactly when the uploads worked, the search was answered, and the record it found was updated or, if
   * it found none, one was added; otherwise it is queued again. The table gains one record of the draft exactly when
   * the uploads worked, the search found none, and the addition was applied, whether or not its call says so.
   */
  lemma AttemptMeans(db: Db, table: seq<Row>, i: nat, uploaded: bool, a: Answers, now: int)
    requires Submitting(db, i) && !Synced(db, i)
    ensures var (db1, table1) := Attempted(db, table, i, uploaded, a, now);
      var updates := uploaded && a.search.Records? && a.search.found.Some? && a.updated;
      var adds := uploaded && a.search.Records? && a.search.found.None? && a.add.NewRecord?;
      && i < |db1.drafts| && db1.drafts[i].flow == (if updates || adds then Submitted else Queued)
      && (updates ==> db1.drafts[i].recordId == a.search.found.value)
      && (adds ==> db1.drafts[i].recordId == a.add.record)
      && table1 == table + if uploaded && a.search == Records(None) && !a.add.NotApplied? then [Row(a.add.record, i)] else []
  {
    assert table + [] == table;
  }

  function AttemptSteps(i: nat, uploaded: bool, a: Answers, now: int): seq<Step> {
    [Begin(i)] + (
      if !uploaded then [UploadRaises(i)] + [Commit(i, now)]
      else [Uploaded(i)] + (
             if a.search.SearchError? then [SearchRaises(i)] + [Commit(i, now)]
             else [Step.Searched(i, a.search.found)] + WriteSteps(i, a, now)))
  }

  /** The answers are ones the external table can give. */
  predicate Possible(w: World, i: nat, a: Answers) {
    && (a.search.Records? && a.search.found.Some? ==> Matches(w, i, a.search.found.value))
    && (!a.add.NotApplied? ==> FreshRecord(w, a.add.record))
  }

  lemma CommitLeads(w: World, id: Identity, i: nat, now: int, idle: World)
    requires i in w.jobs && (w.jobs[i].Wrote? || w.jobs[i].Failed?) && Submitting(w.db, i) && !Synced(w.db, i)
    requires idle.jobs == w.jobs - {i} && idle.table == w.table && idle.late == w.late
    requires idle.db == if w.jobs[i].Wrote? then SyncSuccess(w.db, i, w.jobs[i].record, now) else SyncFailure(w.db, i, now)
    ensures Leads(w, id, [Commit(i, now)], idle)
  {
    Chain(w, id, Commit(i, now), [], idle);
    assert [Commit(i, now)] + [] == [Commit(i, now)];
  }

  /** The last call of the attempt and its commit. */
  lemma LastLeads(w: World, id: Identity, i: nat, s: Step, now: int, idle: World)
    requires Enabled(w, id, s) && Submitting(w.db, i) && !Synced(w.db, i)
    requires var w1 := Next(w, id, s);
      && w1.db == w.db && i in w1.jobs && (w1.jobs[i].Wrote? || w1.jobs[i].Failed?)
      && idle.jobs == w1.jobs - {i} && idle.table == w1.table && idle.late == w1.late
      && idle.db == if w1.jobs[i].Wrote? then SyncSuccess(w.db, i, w1.jobs[i].record, now) else SyncFailure(w.db, i, now)
    ensures Leads(w, id, [s] + [Commit(i, now)], idle)
  {
    CommitLeads(Next(w, id, s), id, i, now, idle);
    Chain(w, id, s, [Commit(i, now)], idle);
  }

  lemma WriteLeads(w: World, id: Identity, i: nat, a: Answers, now: int)
    requires Submitting(w.db, i) && !Synced(w.db, i) && Possible(w, i, a) && a.search.Records?
    requires w.jobs == map[i := Writing(a.search.found)]
    ensures var (db, table) := Attempted(w.db, w.table, i, true, a, now);
      Leads(w, id, WriteSteps(i, a, now), World(db, table, map[], w.late))
  {
    var (db, table) := Attempted(w.db, w.table, i, true, a, now);
    var idle := World(db, table, map[], w.late);
    if a.search.found.Some? {
      LastLeads(w, id, i, Updated(i, a.updated), now, idle);
    } else {
      match a.add
      case NewRecord(record) => LastLeads(w, id, i, Added(i, record), now, idle);
      case NotApplied => LastLeads(w, id, i, AddRaises(i), now, idle);
      case AppliedButError(record) => LastLeads(w, id, i, AddAppliedButRaises(i, record), now, idle);
    }
  }

  /** What a whole call computes is what the protocol's steps lead to. */
  lemma AttemptRefinesProtocol(w: World, id: Identity, i: nat, uploaded: bool, a: Answers, now: int)
    requires Submitting(w.db, i) && !Synced(w.db, i) && w.jobs == map[] && Possible(w, i, a)
    ensures var (db, table) := Attempted(w.db, w.table, i, uploaded, a, now);
      Leads(w, id, AttemptSteps(i, uploaded, a, now), World(db, table, map[], w.late))
  {
    var (db, table) := Attempted(w.db, w.table, i, uploaded, a, now);
    var idle := World(db, table, map[], w.late);
    var w1 := w.(jobs := map[i := Uploading]);
    var w2 := w.(jobs := map[i := Searching]);
    var steps := AttemptSteps(i, uploaded, a, now);
    assert w1.jobs[i := Searching] == w2.jobs;
    if !uploaded {
      LastLeads(w1, id, i, UploadRaises(i), now, idle);
    } else {
      if a.search.SearchError? {
        LastLeads(w2, id, i, SearchRaises(i), now, idle);
      } else {
        var w3 := w.(jobs := map[i := Writing(a.search.found)]);
        assert w2.jobs[i := Writing(a.search.found)] == w3.jobs;
        WriteLeads(w3, id, i, a, now);
        Chain(w2, id, Step.Searched(i, a.search.found), WriteSteps(i, a, now), idle);
      }
      Chain(w1, id, Uploaded(i), steps[1..][1..], idle);
    }
    Chain(w, id, Begin(i), steps[1..], idle);
  }

  // ---------------------------------------------------------------------
  // The service
  // ---------------------------------------------------------------------

  class SyncService {
    const tables: BugTables
    var table: seq<Row>
    var files: map<nat, seq<Attachment>>

    constructor (tables: BugTables)
      ensures this.tables == tables && table == [] && files == map[]
    {
      this.tables := tables;
      table, files := [], map[];
    }

    method UploadAttachments(i: nat, answers: seq<Option<RecordId>>) returns (tokens: seq<string>, ok: bool)
      requires i in files && |answers| == |files[i]|
      modifies this`files
      ensures var r := Upload(old(files[i]), answers);
        files == old(files)[i := r.files] && tokens == r.tokens && ok == r.ok
    {
      var rows := files[i];
      tokens, ok := [], true;
      ghost var goal := Upload(rows, answers);
      var k := 0;
      while k < |rows| && ok
        invariant 0 <= k <= |rows| == |answers|
        invariant ok ==> Remains(goal, rows[..k], tokens, rows[k..], answers[k..])
        invariant !ok ==> goal == Uploads(rows, tokens, false)
        invariant files == old(files)
        decreases |rows| - k, ok
      {
        ghost var done, left := rows[..k], rows[k..];
        Advance(goal, done, tokens, left, answers[k..]);
        assert left[0] == rows[k] && left[1..] == rows[k + 1..] && answers[k..][1..] == answers[k + 1..];
        var row := rows[k];
        if row.token == "" {
          if answers[k].None? {
            row := row.(status := FileFailed);
            ok := false;
          } else {
            row := Attachment(answers[k].value, FileSynced);
          }
        }
        rows := rows[k := row];
        assert rows == done + [row] + left[1..];
        if ok {
          tokens := tokens + [row.token];
          k := k + 1;
          assert rows[..k] == done + [row] && rows[k..] == left[1..];
        }
      }
      assert rows[..k] + [] == rows || !ok;
      assert ok ==> rows[k..] == [] && tokens + [] == tokens;
      files := files[i := rows];
    }

    /** The outcome of a failed attempt: the draft is queued again and its outbox row waits. */
    method RecordFailure(i: nat, now: int)
      requires i < |tables.drafts| && i in tables.outbox
      modifies tables
      ensures tables.Value() == old(Put(tables.Value(), i, Transition(tables.drafts[i], SyncFailed, Queued, Some(Active), now)).(
        outbox := tables.outbox[i := tables.outbox[i].(status := Pending)]))
    {
      tables.outbox := tables.outbox[i := tables.outbox[i].(status := Pending)];
      tables.ChangeState(i, SyncFailed, Queued, Some(Active), now);
    }

    /** The outcome of a successful one: issue, report, draft and outbox row, one after the other. */
    method RecordSuccess(i: nat, record: RecordId, now: int)
      requires Submitting(tables.Value(), i) && !Synced(tables.Value(), i) && tables.outbox[i].status == Processing
      modifies tables
      ensures tables.Value() == SyncSuccess(old(tables.Value()), i, record, now)
    {
      var d := tables.drafts[i];
      var k := tables.reports[i].issue;
      tables.issues := tables.issues[k := tables.issues[k].(
        externalId := record, snapshot := Candidate(record, Description(d), "", ""), status := "submitted")];
      var submitted := if tables.reports[i].submittedAt.None? then Some(now) else tables.reports[i].submittedAt;
      tables.reports := tables.reports[i := tables.reports[i].(
        externalId := record, status := RSubmitted, submittedAt := submitted)];
      tables.drafts := tables.drafts[i := d.(
        recordId := record, submittedAt := if d.submittedAt.None? then Some(now) else d.submittedAt)];
      tables.ChangeState(i, SyncSucceeded, Submitted, Some(StSubmitted), now);
      tables.outbox := tables.outbox[i := tables.outbox[i].(status := Succeeded)];
      assert tables.drafts == SyncSuccess(old(tables.Value()), i, record, now).drafts;
    }

    /** The calls to the external table, and the record they left the draft with. */
    method WriteRecord(i: nat, a: Answers) returns (record: Option<RecordId>)
      modifies this`table
      ensures record == Written(a)
      ensures table == old(table) + Additions(i, a)
    {
      match a.search {
        case SearchError => record := None;
        case Records(Some(found)) => record := if a.updated then Some(found) else None;
        case Records(None) =>
          match a.add {
            case NewRecord(added) =>
              table := table + [Row(added, i)];
              record := Some(added);
            case NotApplied => record := None;
            case AppliedButError(added) =>
              table := table + [Row(added, i)];
              record := None;
          }
      }
    }

    method Sync(i: nat, a: Answers, now: int) returns (reply: SyncReply)
      requires i in files && |a.uploads| == |files[i]|
      modifies this, tables
      ensures !Submitting(old(tables.Value()), i) ==>
        reply == Refused && tables.Value() == old(tables.Value()) && table == old(table) && files == old(files)
      ensures Submitting(old(tables.Value()), i) && Synced(old(tables.Value()), i) ==>
        && reply == AlreadyDone(old(tables.issues[tables.reports[i].issue].externalId))
        && tables.Value() == old(tables.Value()) && table == old(table) && files == old(files)
      ensures Submitting(old(tables.Value()), i) && !Synced(old(tables.Value()), i) ==>
        var up := Upload(old(files[i]), a.uploads);
        && (tables.Value(), table) == Attempted(old(tables.Value()), old(table), i, up.ok, a, now)
        && files == old(files)[i := up.files]
        && (reply.Synchronized? <==> tables.drafts[i].flow == Submitted)
        && (reply.Synchronized? ==> reply.record == tables.drafts[i].recordId && reply.attachments == |up.tokens|)
    {
      if !(i < |tables.drafts| && i in tables.reports && tables.reports[i].issue < |tables.issues| && i in tables.outbox) {
        return Refused;
      }
      var k := tables.reports[i].issue;
      if tables.outbox[i].status == Succeeded && tables.issues[k].externalId != "" && tables.reports[i].externalId != "" {
        return AlreadyDone(tables.issues[k].externalId);
      }
      tables.outbox := tables.outbox[i := Retried(tables.outbox[i], Processing)];
      var tokens, ok := UploadAttachments(i, a.uploads);
      var record := None;
      if ok {
        record := WriteRecord(i, a);
      }
      reply := Conclude(i, record, |tokens|, old(tables.Value()), now);
    }

    /** Books the result of an attempt on `before`, whose outbox row it has marked as being processed. */
    method Conclude(i: nat, record: Option<RecordId>, attachments: nat, ghost before: Db, now: int)
      returns (reply: SyncReply)
      requires Submitting(before, i) && !Synced(before, i)
      requires tables.Value() == before.(outbox := before.outbox[i := Retried(before.outbox[i], Processing)])
      modifies tables
      ensures tables.Value() ==
        if record.Some? then SyncSuccess(before, i, record.value, now) else SyncFailure(before, i, now)
      ensures reply == if record.Some? then Synchronized(record.value, attachments) else SyncError
    {
      if record.None? {
        RecordFailure(i, now);
        assert tables.outbox == SyncFailure(before, i, now).outbox;
        reply := SyncError;
      } else {
        RecordSuccess(i, record.value, now);
        assert tables.outbox == SyncSuccess(before, i, record.value, now).outbox;
        reply := Synchronized(record.value, attachments);
      }
    }
  }
}
