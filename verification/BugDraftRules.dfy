/**
 * What every committed call of the bug assistant keeps, for one fixed identity.
 */
module BugDraftRules {
  import opened Wrappers
  import opened Text
  import opened BugDrafts

  // ---------------------------------------------------------------------
  // Drafts
  // ---------------------------------------------------------------------

  /** The history is a path: each event starts where the previous one ended. */
  ghost predicate IsPath(d: Draft) {
    && d.events != []
    && d.events[0].from.None?
    && (forall k :: 0 < k < |d.events| ==> d.events[k].from == Some(d.events[k - 1].to))
    && d.events[|d.events| - 1].to == d.flow
  }

  function StatusOf(f: Flow): Status {
    match f
    case Submitted => StSubmitted
    case Linked => StSubmitted
    case Abandoned => StAbandoned
    case Expired => StExpired
    case Superseded => StSuperseded
    case _ => Active
  }

  predicate Described(d: Draft) {
    !Blank(Description(d))
  }

  /** The state a draft is in, or was left in when it was suspended. */
  function Effective(d: Draft): Flow {
    if d.flow == Suspended then ResumeTarget(d) else d.flow
  }

  /** What each state says about the draft's content. */
  predicate ContentOk(d: Draft) {
    match Effective(d)
    case Matching => false
    case Awaiting => d.matchedId != "" && Described(d)
    case Ready => d.matchedId == "" && Described(d)
    case Queued => Described(d)
    case Submitted => Described(d)
    case Linked => Described(d)
    case _ => true
  }

  ghost predicate DraftOk(d: Draft) {
    IsPath(d) && d.status == StatusOf(d.flow) && ContentOk(d)
  }

  lemma PathLog(d: Draft, d': Draft, kind: EventKind)
    requires IsPath(d) && d'.events == d.events
    ensures IsPath(Log(d', kind, Some(d.flow)))
  {
  }

  /** A transition to a state other than suspended, into consistent content. */
  lemma TransitionOk(d: Draft, changed: Draft, kind: EventKind, flow: Flow, status: Option<Status>, now: int)
    requires IsPath(d) && changed.events == d.events && changed.flow == d.flow
    requires flow != Suspended && (if status.Some? then status.value else changed.status) == StatusOf(flow)
    requires ContentOk(changed.(flow := flow))
    ensures DraftOk(Transition(changed, kind, flow, status, now))
    ensures var t := Transition(changed, kind, flow, status, now);
      t.flow == flow && t.fields == changed.fields && t.matchedId == changed.matchedId
      && t.snapshot == changed.snapshot && t.recordId == changed.recordId
  {
    var moved := Closed(changed.(flow := flow, status := if status.Some? then status.value else changed.status), now);
    PathLog(d, moved, kind);
    assert ContentOk(Transition(changed, kind, flow, status, now)) by {
      assert Description(moved) == Description(changed);
    }
  }

  /** An event that leaves the state alone and is no suspension. */
  lemma LogOk(d: Draft, changed: Draft, kind: EventKind)
    requires DraftOk(d) && kind != AssistantSuspended
    requires changed == d.(fields := changed.fields, expiresAt := changed.expiresAt)
    requires Described(d) ==> Described(changed)
    ensures DraftOk(Log(changed, kind, Some(d.flow)))
    ensures ResumeTarget(Log(changed, kind, Some(d.flow))) == ResumeTarget(d)
  {
    PathLog(d, changed, kind);
    var after := Log(changed, kind, Some(d.flow));
    assert after.events[..|after.events| - 1] == d.events;
  }

  lemma SuspendOk(d: Draft, now: int)
    requires DraftOk(d) && d.flow in {Collecting, Awaiting, Ready}
    ensures var s := Transition(d, AssistantSuspended, Suspended, None, now);
      DraftOk(s) && ResumeTarget(s) == d.flow
  {
    PathLog(d, d.(flow := Suspended), AssistantSuspended);
  }

  lemma NewDraftOk(now: int, timeout: int)
    ensures DraftOk(NewDraft(now, timeout)) && NewDraft(now, timeout).flow == Collecting
  {
  }

  // ---------------------------------------------------------------------
  // Patching
  // ---------------------------------------------------------------------

  lemma {:induction false} PatchedDescription(
    fields: map<string, string>, patch: map<string, string>, names: seq<string>, n: string)
    requires n in fields && !Blank(fields[n])
    ensures n in Patched(fields, patch, names) && !Blank(Patched(fields, patch, names)[n])
    decreases names
  {
    if names != [] {
      if names[0] in patch && !Blank(patch[names[0]]) {
        StripTwice(patch[names[0]]);
        PatchedDescription(fields[names[0] := Strip(patch[names[0]])], patch, names[1..], n);
      } else {
        PatchedDescription(fields, patch, names[1..], n);
      }
    }
  }

  lemma TouchOk(d: Draft, patch: map<string, string>, kind: EventKind, now: int, timeout: int)
    requires DraftOk(d) && kind != AssistantSuspended
    ensures var t := Touch(d, patch, kind, now, timeout);
      && DraftOk(t) && t.flow == d.flow && t.matchedId == d.matchedId && t.snapshot == d.snapshot
      && t.status == d.status && t.recordId == d.recordId && ResumeTarget(t) == ResumeTarget(d)
      && (Described(d) ==> Described(t))
  {
    assert DESCRIPTION !in d.fields ==> !Described(d);
    if Described(d) {
      PatchedDescription(d.fields, patch, PATCH_FIELDS, DESCRIPTION);
    }
    LogOk(d, d.(fields := Patched(d.fields, patch, PATCH_FIELDS),
                expiresAt := if d.status == Active then now + timeout else d.expiresAt), kind);
  }

  // ---------------------------------------------------------------------
  // Bindings
  // ---------------------------------------------------------------------

  type Keys = seq<(string, string)>

  /** An identity's keys are bound together, or not at all. */
  ghost predicate BoundTogether(db: Db, keys: Keys) {
    forall k, l :: k in keys && l in keys && k in db.bindings ==>
      l in db.bindings && db.bindings[l] == db.bindings[k] && db.bindings[k] < |db.drafts|
  }

  lemma {:induction false} FindBoundIs(db: Db, keys: Keys)
    ensures FindBound(db, keys).Some? <==> exists k :: k in keys && k in db.bindings
    ensures FindBound(db, keys).Some? ==> exists k :: k in keys && k in db.bindings && db.bindings[k] == FindBound(db, keys).value
    ensures keys != [] && keys[0] in db.bindings ==> FindBound(db, keys) == Some(db.bindings[keys[0]])
    decreases keys
  {
    if keys != [] && keys[0] !in db.bindings {
      FindBoundIs(db, keys[1..]);
    }
  }

  lemma {:induction false} BindIs(b: map<(string, string), nat>, keys: Keys, d: nat)
    ensures forall k :: k in Bind(b, keys, d) <==> k in b || k in keys
    ensures forall k :: k in keys ==> k in Bind(b, keys, d) && Bind(b, keys, d)[k] == d
    ensures forall k :: k in b && k !in keys ==> k in Bind(b, keys, d) && Bind(b, keys, d)[k] == b[k]
    decreases keys
  {
    if keys != [] {
      BindIs(b[keys[0] := d], keys[1..], d);
    }
  }

  lemma BoundInRange(db: Db, keys: Keys)
    requires BoundTogether(db, keys)
    ensures BoundExists(db, keys)
  {
    FindBoundIs(db, keys);
  }

  /** After binding, every key of the identity leads to the draft. */
  lemma BoundAfter(db: Db, keys: Keys, d: nat, db': Db)
    requires db'.bindings == Bind(db.bindings, keys, d) && d < |db'.drafts|
    ensures BoundTogether(db', keys)
    ensures FindBound(db', keys) == if keys == [] then None else Some(d)
  {
    BindIs(db.bindings, keys, d);
    FindBoundIs(db', keys);
    if keys != [] {
      assert keys[0] in keys;
    }
  }

  lemma {:induction false} FindBoundSame(db: Db, db': Db, keys: Keys)
    requires db'.bindings == db.bindings
    ensures FindBound(db', keys) == FindBound(db, keys)
    decreases keys
  {
    if keys != [] {
      FindBoundSame(db, db', keys[1..]);
    }
  }

  // ---------------------------------------------------------------------
  // A draft and its submission
  // ---------------------------------------------------------------------

  type OutboxTable = map<nat, Outbox>
  type ReportTable = map<nat, Report>
  type IssueTable = seq<Issue>

  /** An outbox row belongs to a submitted draft, its one report and its one local issue. */
  predicate SubmissionOk(outbox: OutboxTable, reports: ReportTable, issues: IssueTable, i: nat, d: Draft)
    requires i in outbox
  {
    && d.flow in {Queued, Submitted, Superseded, Expired}
    && Described(d)
    && i in reports
    && reports[i].link == NewIssue
    && reports[i].issue == outbox[i].issue < |issues|
    && issues[outbox[i].issue].source == Local
    && issues[outbox[i].issue].origin == Some(i)
    && (outbox[i].status == Succeeded <==> d.flow == Submitted)
    && (outbox[i].status == Succeeded ==>
          d.recordId == reports[i].externalId == issues[outbox[i].issue].externalId != "")
    && reports[i].status == (if outbox[i].status == Succeeded then RSubmitted else RQueued)
    && (reports[i].submittedAt.Some? <==> outbox[i].status == Succeeded)
    && issues[outbox[i].issue].status == (if outbox[i].status == Succeeded then "submitted" else "pending_sync")
  }

  /** A report without an outbox row links the draft to a known external issue. */
  predicate LinkOk(reports: ReportTable, issues: IssueTable, i: nat, d: Draft)
    requires i in reports
  {
    && d.flow == Linked
    && reports[i].link == ConfirmedDuplicate
    && reports[i].status == RLinked && reports[i].submittedAt.Some?
    && reports[i].issue < |issues|
    && issues[reports[i].issue].source == Feishu
    && issues[reports[i].issue].origin.None?
    && issues[reports[i].issue].externalId == reports[i].externalId == d.matchedId != ""
  }

  ghost predicate RowOk(outbox: OutboxTable, reports: ReportTable, issues: IssueTable, i: nat, d: Draft) {
    && DraftOk(d)
    && (i in outbox ==> SubmissionOk(outbox, reports, issues, i, d))
    && (i in reports && i !in outbox ==> LinkOk(reports, issues, i, d))
    && (d.flow in {Queued, Submitted} ==> i in outbox)
    && (d.flow == Linked ==> i in reports && i !in outbox)
  }

  /** Every local issue is the one of its draft's outbox row; an external record has one external issue. */
  ghost predicate IssuesOk(outbox: OutboxTable, issues: IssueTable) {
    && (forall k | 0 <= k < |issues| && issues[k].source == Local ::
          issues[k].origin.Some? && issues[k].origin.value in outbox && outbox[issues[k].origin.value].issue == k)
    && (forall k | 0 <= k < |issues| && issues[k].source == Feishu :: issues[k].origin.None?)
    && (forall k, l | 0 <= k < l < |issues| && issues[k].source == Feishu && issues[l].source == Feishu ::
          issues[k].externalId != issues[l].externalId)
  }

  ghost predicate RowsOk(db: Db) {
    && (forall i: nat | i < |db.drafts| :: RowOk(db.outbox, db.reports, db.issues, i, db.drafts[i]))
    && (forall i | i in db.outbox :: i < |db.drafts|)
    && (forall i | i in db.reports :: i < |db.drafts|)
    && IssuesOk(db.outbox, db.issues)
  }

  /** The identity's current draft is neither expired nor superseded. */
  ghost predicate CurrentOk(db: Db, keys: Keys) {
    && BoundTogether(db, keys)
    && (FindBound(db, keys).Some? && FindBound(db, keys).value < |db.drafts| ==>
          db.drafts[FindBound(db, keys).value].flow !in {Expired, Superseded})
  }

  ghost predicate DbOk(db: Db, keys: Keys) {
    RowsOk(db) && CurrentOk(db, keys)
  }

  const EMPTY_DB := Db([], map[], [], map[], map[], {})

  lemma EmptyOk(keys: Keys)
    ensures DbOk(EMPTY_DB, keys)
  {
    FindBoundIs(EMPTY_DB, keys);
  }

  /** The draft a call ends up with: bound to every key the identity has. */
  ghost predicate IsCurrent(db: Db, keys: Keys, i: nat) {
    i < |db.drafts| && FindBound(db, keys) == (if keys == [] then None else Some(i))
    && db.drafts[i].flow !in {Expired, Superseded}
  }

  /** One draft may be rewritten into any state its own rows allow. */
  lemma PutOk(db: Db, keys: Keys, i: nat, d: Draft)
    requires RowsOk(db) && i < |db.drafts|
    requires RowOk(db.outbox, db.reports, db.issues, i, d)
    ensures RowsOk(Put(db, i, d))
    ensures IsCurrent(db, keys, i) && BoundTogether(db, keys) && d.flow !in {Expired, Superseded} ==>
      DbOk(Put(db, i, d), keys) && IsCurrent(Put(db, i, d), keys, i)
  {
    FindBoundSame(db, Put(db, i, d), keys);
  }

  /** Rows of other drafts survive new rows, and new content of the issue that is draft `i`'s own. */
  lemma RowKept(db: Db, db': Db, i: nat, j: nat)
    requires RowsOk(db) && j < |db.drafts| <= |db'.drafts| && db'.drafts[j] == db.drafts[j] && i != j
    requires j in db'.outbox <==> j in db.outbox
    requires j in db.outbox ==> db'.outbox[j] == db.outbox[j]
    requires j in db'.reports <==> j in db.reports
    requires j in db.reports ==> db'.reports[j] == db.reports[j]
    requires |db.issues| <= |db'.issues|
    requires forall k | 0 <= k < |db.issues| ::
      && db'.issues[k].source == db.issues[k].source && db'.issues[k].origin == db.issues[k].origin
      && (db'.issues[k].externalId == db.issues[k].externalId || db.issues[k].origin == Some(i))
      && (db'.issues[k].status == db.issues[k].status || db.issues[k].source == Feishu || db.issues[k].origin == Some(i))
    ensures RowOk(db'.outbox, db'.reports, db'.issues, j, db'.drafts[j])
  {
    assert RowOk(db.outbox, db.reports, db.issues, j, db.drafts[j]);
  }

  // ---------------------------------------------------------------------
  // ensure_draft
  // ---------------------------------------------------------------------

  lemma RetiredOk(db: Db, i: nat, now: int)
    requires RowsOk(db) && i < |db.drafts|
    ensures RowOk(db.outbox, db.reports, db.issues, i, Retired(db.drafts[i], now))
  {
    var d := db.drafts[i];
    assert RowOk(db.outbox, db.reports, db.issues, i, d);
    PathLog(d, d.(status := StExpired, flow := Expired, closedAt := Some(now)), DraftExpired);
    PathLog(d, d.(status := StSuperseded, flow := Superseded, closedAt := Some(now)), DraftSuperseded);
    assert Described(Expire(d, now)) == Described(d) == Described(Supersede(d, now));
  }

  lemma AppendOk(db: Db, now: int, timeout: int)
    requires RowsOk(db)
    ensures RowsOk(db.(drafts := db.drafts + [NewDraft(now, timeout)]))
  {
    NewDraftOk(now, timeout);
  }

  lemma PickOk(db: Db, keys: Keys, forceNew: bool, now: int, timeout: int)
    requires DbOk(db, keys) && BoundExists(db, keys)
    ensures var (db1, i) := PickDraft(db, keys, forceNew, now, timeout);
      && RowsOk(db1) && i < |db1.drafts| && db1.drafts[i].flow !in {Expired, Superseded}
  {
    if FindBound(db, keys).Some? {
      var i := FindBound(db, keys).value;
      if PastDue(db.drafts[i], now) || forceNew {
        RetiredOk(db, i, now);
        PutOk(db, keys, i, Retired(db.drafts[i], now));
        AppendOk(Put(db, i, Retired(db.drafts[i], now)), now, timeout);
      }
    } else {
      AppendOk(db, now, timeout);
    }
  }

  lemma TouchRowOk(db: Db, i: nat, patch: map<string, string>, kind: EventKind, now: int, timeout: int)
    requires RowsOk(db) && i < |db.drafts| && kind != AssistantSuspended
    ensures RowOk(db.outbox, db.reports, db.issues, i, Touch(db.drafts[i], patch, kind, now, timeout))
  {
    assert RowOk(db.outbox, db.reports, db.issues, i, db.drafts[i]);
    TouchOk(db.drafts[i], patch, kind, now, timeout);
  }

  /** `ensure_draft` leaves a consistent database and the identity bound to the draft it returns. */
  lemma EnsureOk(db: Db, id: Identity, forceNew: bool, patch: map<string, string>, kind: EventKind, now: int, timeout: int)
    requires DbOk(db, Bindings(id)) && BoundExists(db, Bindings(id)) && kind != AssistantSuspended
    ensures var (db1, i) := EnsureDraft(db, id, forceNew, patch, kind, now, timeout);
      DbOk(db1, Bindings(id)) && IsCurrent(db1, Bindings(id), i)
  {
    var keys := Bindings(id);
    PickOk(db, keys, forceNew, now, timeout);
    var (db0, i) := PickDraft(db, keys, forceNew, now, timeout);
    var t := Touch(db0.drafts[i], patch, kind, now, timeout);
    TouchRowOk(db0, i, patch, kind, now, timeout);
    PutOk(db0, keys, i, t);
    var db1 := EnsureDraft(db, id, forceNew, patch, kind, now, timeout).0;
    BoundAfter(db0, keys, i, db1);
    assert db1.drafts == Put(db0, i, t).drafts && t.flow == db0.drafts[i].flow;
  }
}
