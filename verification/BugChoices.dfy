/**
 * What a chat text does to the draft it is said about: the words of `_event_for`
 * (app/services/bug_assistant_message_service.py:452-495), told by where the draft ends up.
 */
module BugChoices {
  import opened Wrappers
  import opened Text
  import opened BugDrafts
  import opened BugDraftRules
  import opened BugDraftSteps
  import opened BugDraftRuns
  import opened BugMessages

  /** Only spaces are dropped from a text ... */
  lemma {:induction false} UnspacedIs(s: string)
    ensures forall c :: c in Unspaced(s) <==> c in s && !IsSpace(c)
    ensures (forall c :: c in s ==> !IsSpace(c)) ==> Unspaced(s) == s
    decreases s
  {
    if s != "" {
      UnspacedIs(s[1..]);
      assert s == s[..1] + s[1..];
      assert forall c :: c in s <==> c == s[0] || c in s[1..];
    }
  }

  /** ... and the others keep their order. */
  lemma {:induction false} UnspacedJoins(s: string, t: string)
    ensures Unspaced(s + t) == Unspaced(s) + Unspaced(t)
    decreases s
  {
    if s == "" {
      assert s + t == t;
    } else {
      UnspacedJoins(s[1..], t);
      var head := if IsSpace(s[0]) then "" else s[..1];
      assert (s + t)[1..] == s[1..] + t && (s + t)[..1] == s[..1];
      assert Unspaced(s + t) == head + Unspaced(s[1..] + t);
      assert head + (Unspaced(s[1..]) + Unspaced(t)) == (head + Unspaced(s[1..])) + Unspaced(t);
    }
  }

  /** A text is read without its spaces, in lower case. */
  lemma NormalizedIs(text: string, lower: string -> string)
    ensures forall c :: c in Normalized(text, lower) <==> c in lower(Strip(text)) && !IsSpace(c)
    ensures (forall c :: c in lower(Strip(text)) ==> !IsSpace(c)) ==> Normalized(text, lower) == lower(Strip(text))
  {
    UnspacedIs(lower(Strip(text)));
  }

  // ---------------------------------------------------------------------
  // What each decision does to the draft
  // ---------------------------------------------------------------------

  /** The tables beside the drafts are as they were. */
  predicate SameRows(db: Db, db1: Db) {
    db1.reports == db.reports && db1.outbox == db.outbox && db1.issues == db.issues && db1.subscriptions == db.subscriptions
  }

  /** The candidate was rejected: the report may be submitted, and nothing was linked or submitted. */
  ghost predicate Rejected(db: Db, r: (Db, Reply), i: nat) {
    && r.1 == Decided(i, Ready, AskConfirmSubmit, None)
    && i < |r.0.drafts| && r.0.drafts[i].flow == Ready && r.0.drafts[i].status == Active
    && Recorded(r.0.drafts[i], CandidateRejected)
    && r.0.drafts[i].matchedId == "" && r.0.drafts[i].snapshot == NO_CANDIDATE
    && SameRows(db, r.0) && i !in r.0.reports
  }

  /** The candidate was confirmed: the draft has one report, on the external issue of that candidate's record. */
  ghost predicate LinkedTo(db: Db, r: (Db, Reply), i: nat, now: int)
    requires i < |db.drafts|
  {
    var d := db.drafts[i];
    && i < |r.0.drafts| && r.0.drafts[i].flow == Linked && r.0.drafts[i].status == StSubmitted
    && Recorded(r.0.drafts[i], ExistingLinked)
    && (d.submittedAt.None? ==> r.0.drafts[i].submittedAt == Some(now))
    && (d.submittedAt.Some? ==> r.0.drafts[i].submittedAt == d.submittedAt)
    && i in r.0.reports && r.0.reports[i].issue < |r.0.issues|
    && r.1 == Decided(i, Linked, Completed, Some(r.0.reports[i].issue))
    && r.0.reports[i].status == RLinked && r.0.reports[i].link == ConfirmedDuplicate
    && r.0.reports[i].externalId == d.matchedId
    && r.0.issues[r.0.reports[i].issue].source == Feishu
    && r.0.issues[r.0.reports[i].issue].externalId == d.matchedId
    && r.0.issues[r.0.reports[i].issue].snapshot == d.snapshot
    && r.0.outbox == db.outbox && i !in r.0.outbox
  }

  /** The report was confirmed for submission: a new local issue waits to be synchronized. */
  ghost predicate QueuedAs(db: Db, r: (Db, Reply), i: nat) {
    && i < |r.0.drafts| && r.0.drafts[i].flow == Queued && r.0.drafts[i].status == Active
    && Recorded(r.0.drafts[i], SubmissionQueued)
    && r.1 == Decided(i, Queued, WaitForSync, Some(|db.issues|))
    && |r.0.issues| == |db.issues| + 1 && r.0.issues[..|db.issues|] == db.issues
    && r.0.issues[|db.issues|] == Issue(Local, "", "pending_sync", NO_CANDIDATE, Some(i))
    && i in r.0.reports && r.0.reports[i].issue == |db.issues|
    && r.0.reports[i].status == RQueued && r.0.reports[i].link == NewIssue && r.0.reports[i].externalId == ""
    && i in r.0.outbox && r.0.outbox[i] == Outbox(Processing, 1, |db.issues|)
  }

  /** The report was cancelled, at this time, and nothing came of it. */
  ghost predicate AbandonedAt(db: Db, r: (Db, Reply), i: nat, now: int)
    requires i < |db.drafts|
  {
    && r.1 == Decided(i, Abandoned, Completed, None)
    && i < |r.0.drafts| && r.0.drafts[i].flow == Abandoned && r.0.drafts[i].status == StAbandoned
    && Recorded(r.0.drafts[i], AssistantAbandoned)
    && (db.drafts[i].closedAt.None? ==> r.0.drafts[i].closedAt == Some(now))
    && SameRows(db, r.0) && i !in r.0.reports
  }

  /** The draft is kept aside and comes back, with its candidate, to the state it was in. */
  ghost predicate SetAside(db: Db, r: (Db, Reply), i: nat)
    requires i < |db.drafts|
  {
    && r.1 == Decided(i, Suspended, HandoffQa, None)
    && i < |r.0.drafts| && r.0.drafts[i].flow == Suspended && ResumeTarget(r.0.drafts[i]) == db.drafts[i].flow
    && r.0.drafts[i].matchedId == db.drafts[i].matchedId && r.0.drafts[i].snapshot == db.drafts[i].snapshot
  }

  /** The draft comes back to the state it was set aside in, with its candidate. */
  ghost predicate TakenUp(db: Db, r: (Db, Reply), i: nat)
    requires i < |db.drafts|
  {
    && i < |r.0.drafts| && r.0.drafts[i].flow == ResumeTarget(db.drafts[i])
    && Recorded(r.0.drafts[i], AssistantResumed)
    && r.1.Decided? && r.1.draft == i && r.1.state == ResumeTarget(db.drafts[i]) && AsksFor(r.1.state, r.1.action)
    && r.0.drafts[i].matchedId == db.drafts[i].matchedId && r.0.drafts[i].snapshot == db.drafts[i].snapshot
  }

  /** The text is added to the description and the draft is matched again. */
  ghost predicate Supplemented(db: Db, r: (Db, Reply), i: nat, text: string, search: Search)
    requires i < |db.drafts|
  {
    && r.1.Decided? && r.1.draft == i && i < |r.0.drafts|
    && (Blank(text) ==> Description(r.0.drafts[i]) == Description(db.drafts[i]))
    && (!Blank(text) ==>
          Description(r.0.drafts[i]) == Extended(Strip(Description(db.drafts[i])), Strip(text)))
    && Matched(r.0.drafts[i], r.1, search)
    && (r.1.state == Collecting ==>
          r.0.drafts[i].matchedId == db.drafts[i].matchedId && r.0.drafts[i].snapshot == db.drafts[i].snapshot)
    && SameRows(db, r.0)
  }

  lemma DecidedAs(db: Db, id: Identity, req: Request, i: nat)
    requires DbOk(db, Bindings(id)) && Bound(db, id, i, req.now) && !IsCollecting(req.event)
    ensures BoundExists(db, Bindings(id))
    ensures var db1 := Deciding(db, id, req).0;
      i < |db1.drafts| && Handle(db, id, req) == OrRollback(db, Decide(db1, id, i, req))
    ensures var db1 := Deciding(db, id, req).0; SameRows(db, db1) && DbOk(db1, Bindings(id))
    ensures db.drafts[i].flow in {Collecting, Awaiting, Ready, Suspended} ==> i !in db.reports && i !in db.outbox
  {
    BoundStays(db, id, req, i);
    DecidingOk(db, id, req);
    NeverMatching(db, i);
    assert RowOk(db.outbox, db.reports, db.issues, i, db.drafts[i]);
  }

  lemma Rejects(db: Db, id: Identity, req: Request, i: nat)
    requires DbOk(db, Bindings(id)) && Bound(db, id, i, req.now)
    requires req.event == RejectMatch && db.drafts[i].flow == Awaiting
    ensures BoundExists(db, Bindings(id)) && Rejected(db, Handle(db, id, req), i)
  {
    DecidedAs(db, id, req, i);
    BoundStays(db, id, req, i);
    NeverMatching(db, i);
  }

  lemma LinksAt(db: Db, id: Identity, i: nat, now: int)
    requires RowsOk(db) && i < |db.drafts| && db.drafts[i].flow == Awaiting && i !in db.outbox
    ensures LinkedTo(db, ConfirmMatchStep(db, id, i, now), i, now)
  {
    NeverMatching(db, i);
    ExternalIssueOk(db.outbox, db.issues, db.drafts[i]);
  }

  lemma Links(db: Db, id: Identity, req: Request, i: nat)
    requires DbOk(db, Bindings(id)) && Bound(db, id, i, req.now)
    requires req.event == ConfirmMatch && db.drafts[i].flow == Awaiting
    ensures BoundExists(db, Bindings(id)) && LinkedTo(db, Handle(db, id, req), i, req.now)
  {
    DecidedAs(db, id, req, i);
    BoundStays(db, id, req, i);
    ClosedStays(db, id, req, i);
    LinksAt(Deciding(db, id, req).0, id, i, req.now);
  }

  lemma SubmitsAt(db: Db, id: Identity, i: nat, now: int)
    requires RowsOk(db) && i < |db.drafts| && db.drafts[i].flow == Ready && i !in db.outbox
    ensures QueuedAs(db, ConfirmSubmitStep(db, id, i, now), i)
  {
  }

  lemma Submits(db: Db, id: Identity, req: Request, i: nat)
    requires DbOk(db, Bindings(id)) && Bound(db, id, i, req.now)
    requires req.event == ConfirmSubmit && db.drafts[i].flow == Ready
    ensures BoundExists(db, Bindings(id)) && QueuedAs(db, Handle(db, id, req), i)
  {
    DecidedAs(db, id, req, i);
    BoundStays(db, id, req, i);
    SubmitsAt(Deciding(db, id, req).0, id, i, req.now);
  }

  lemma Cancels(db: Db, id: Identity, req: Request, i: nat)
    requires DbOk(db, Bindings(id)) && Bound(db, id, i, req.now)
    requires req.event == Cancel && db.drafts[i].flow in {Collecting, Awaiting, Ready, Suspended}
    ensures BoundExists(db, Bindings(id)) && AbandonedAt(db, Handle(db, id, req), i, req.now)
  {
    DecidedAs(db, id, req, i);
    BoundStays(db, id, req, i);
    ClosedStays(db, id, req, i);
  }

  lemma ClosedStays(db: Db, id: Identity, req: Request, i: nat)
    requires DbOk(db, Bindings(id)) && Bound(db, id, i, req.now)
    ensures BoundExists(db, Bindings(id)) && i < |Deciding(db, id, req).0.drafts|
    ensures Deciding(db, id, req).0.drafts[i].closedAt == db.drafts[i].closedAt
    ensures Deciding(db, id, req).0.drafts[i].submittedAt == db.drafts[i].submittedAt
  {
    BoundStays(db, id, req, i);
  }

  lemma ResumeRecords(db: Db, id: Identity, req: Request, i: nat)
    requires DbOk(db, Bindings(id)) && Bound(db, id, i, req.now)
    requires req.event == Resume && db.drafts[i].flow == Suspended
    ensures BoundExists(db, Bindings(id))
    ensures var db1 := Handle(db, id, req).0; i < |db1.drafts| && Recorded(db1.drafts[i], AssistantResumed)
  {
    DecidedAs(db, id, req, i);
    BoundStays(db, id, req, i);
  }

  lemma Resumes(db: Db, id: Identity, req: Request, i: nat)
    requires DbOk(db, Bindings(id)) && Bound(db, id, i, req.now)
    requires req.event == Resume && db.drafts[i].flow == Suspended
    ensures BoundExists(db, Bindings(id)) && TakenUp(db, Handle(db, id, req), i)
  {
    ResumesTo(db, id, req, i);
    ResumeRecords(db, id, req, i);
    NeverMatching(db, i);
  }

  lemma Supplements(db: Db, id: Identity, req: Request, i: nat)
    requires DbOk(db, Bindings(id)) && Bound(db, id, i, req.now)
    requires req.event == PatchReport && req.patch == map[] && !req.forceNew
    requires db.drafts[i].flow in {Collecting, Awaiting, Ready, Suspended}
    ensures BoundExists(db, Bindings(id)) && Supplemented(db, Handle(db, id, req), i, req.text, req.search)
  {
    HandleOk(db, id, req);
    CollectedRows(db, id, req, i);
    if !Blank(req.text) {
      PatchExtends(db, id, req, i);
    }
  }

  lemma {:induction false} PatchNothing(fields: map<string, string>, names: seq<string>)
    ensures Patched(fields, map[], names) == fields
    decreases names
  {
    if names != [] {
      PatchNothing(fields, names[1..]);
    }
  }

  lemma SearchedKeepsCandidate(d: Draft, i: nat, search: Search, now: int)
    ensures var (d', reply) := Searched(d, i, search, now);
      reply.Decided? && reply.state == Collecting ==> d'.matchedId == d.matchedId && d'.snapshot == d.snapshot
  {
  }

  lemma CollectedSame(db: Db, id: Identity, req: Request, i: nat)
    requires DbOk(db, Bindings(id)) && BoundExists(db, Bindings(id)) && Bound(db, id, i, req.now)
    requires req.event == PatchReport && req.patch == map[] && !req.forceNew
    ensures var (db1, k) := Collected(db, id, req);
      && k == i && SameRows(db, db1) && db1.drafts[i].flow == db.drafts[i].flow
      && db1.drafts[i].matchedId == db.drafts[i].matchedId && db1.drafts[i].snapshot == db.drafts[i].snapshot
      && (Blank(req.text) ==> db1.drafts[i].fields == db.drafts[i].fields)
  {
    PatchNothing(db.drafts[i].fields, PATCH_FIELDS);
  }

  lemma CollectedRows(db: Db, id: Identity, req: Request, i: nat)
    requires DbOk(db, Bindings(id)) && Bound(db, id, i, req.now)
    requires req.event == PatchReport && req.patch == map[] && !req.forceNew
    requires db.drafts[i].flow in {Collecting, Awaiting, Ready, Suspended}
    ensures BoundExists(db, Bindings(id))
    ensures var (db1, reply) := Handle(db, id, req);
      && reply.Decided? && reply.draft == i && i < |db1.drafts| && SameRows(db, db1)
      && (Blank(req.text) ==> Description(db1.drafts[i]) == Description(db.drafts[i]))
      && (reply.state == Collecting ==>
            db1.drafts[i].matchedId == db.drafts[i].matchedId && db1.drafts[i].snapshot == db.drafts[i].snapshot)
  {
    BoundInRange(db, Bindings(id));
    CollectedSame(db, id, req, i);
    var (db1, k) := Collected(db, id, req);
    SearchedKeepsFields(db1.drafts[i], i, req.search, req.now);
    SearchedKeepsCandidate(db1.drafts[i], i, req.search, req.now);
    assert Handle(db, id, req) == (Put(db1, i, Searched(db1.drafts[i], i, req.search, req.now).0),
                                   Searched(db1.drafts[i], i, req.search, req.now).1);
  }

  // ---------------------------------------------------------------------
  // What a text does
  // ---------------------------------------------------------------------

  /** The answer to a text message. */
  function Said(
    db: Db, id: Identity, text: string, lower: string -> string, search: Search, now: int, timeout: int): (Db, Reply)
    requires BoundExists(db, Bindings(id))
  {
    Handle(db, id, Message(db, id, text, lower, search, now, timeout))
  }

  /**
   * A text about a draft that waits for the user's word on a candidate: a switch to Q&A sets the draft aside; else a
   * cancel word, whatever else the text says, abandons it; else a reject word or marker, even one that contains a
   * confirm marker, drops the candidate; else a confirm word or marker links the draft to it; and any other text
   * supplements the report.
   */
  lemma AwaitingSaid(
    db: Db, id: Identity, text: string, lower: string -> string, search: Search, now: int, timeout: int, i: nat)
    requires DbOk(db, Bindings(id)) && Bound(db, id, i, now) && db.drafts[i].flow == Awaiting && lower("") == ""
    ensures BoundExists(db, Bindings(id))
    ensures var n := Normalized(text, lower);
      var r := Said(db, id, text, lower, search, now, timeout);
      if AsksQa(n) then SetAside(db, r, i)
      else if SaysCancel(n) then AbandonedAt(db, r, i, now)
      else if SaysOther(n) then Rejected(db, r, i)
      else if SaysSame(n) then LinkedTo(db, r, i, now)
      else Supplemented(db, r, i, Strip(text), search)
  {
    BoundInRange(db, Bindings(id));
    var req := Message(db, id, text, lower, search, now, timeout);
    var e := AwaitingEvent(Normalized(text, lower));
    match e
    case Suspend => SuspendsFrom(db, id, req, i);
    case Cancel => Cancels(db, id, req, i);
    case RejectMatch => Rejects(db, id, req, i);
    case ConfirmMatch => Links(db, id, req, i);
    case _ => Supplements(db, id, req, i);
  }

  lemma AwaitingEvent(n: string) returns (e: Event)
    ensures e == EventFor(Some(Awaiting), n)
    ensures e in {Suspend, Cancel, RejectMatch, ConfirmMatch, PatchReport}
    ensures e == Suspend <==> AsksQa(n)
    ensures e == Cancel <==> !AsksQa(n) && SaysCancel(n)
    ensures e == RejectMatch <==> !AsksQa(n) && !SaysCancel(n) && SaysOther(n)
    ensures e == ConfirmMatch <==> !AsksQa(n) && !SaysCancel(n) && !SaysOther(n) && SaysSame(n)
  {
    e := EventFor(Some(Awaiting), n);
  }
  /**
   * On a draft that is ready to be submitted: a switch to Q&A sets it aside; else a cancel word abandons it; else a
   * confirm word queues it; and any other text supplements the report.
   */
  lemma ReadySaid(
    db: Db, id: Identity, text: string, lower: string -> string, search: Search, now: int, timeout: int, i: nat)
    requires DbOk(db, Bindings(id)) && Bound(db, id, i, now) && db.drafts[i].flow == Ready && lower("") == ""
    ensures BoundExists(db, Bindings(id))
    ensures var n := Normalized(text, lower);
      var r := Said(db, id, text, lower, search, now, timeout);
      if AsksQa(n) then SetAside(db, r, i)
      else if SaysCancel(n) then AbandonedAt(db, r, i, now)
      else if SaysSubmit(n) then QueuedAs(db, r, i)
      else Supplemented(db, r, i, Strip(text), search)
  {
    BoundInRange(db, Bindings(id));
    var req := Message(db, id, text, lower, search, now, timeout);
    var e := ReadyEvent(Normalized(text, lower));
    match e
    case Suspend => SuspendsFrom(db, id, req, i);
    case Cancel => Cancels(db, id, req, i);
    case ConfirmSubmit => Submits(db, id, req, i);
    case _ => Supplements(db, id, req, i);
  }

  lemma ReadyEvent(n: string) returns (e: Event)
    ensures e == EventFor(Some(Ready), n) && e in {Suspend, Cancel, ConfirmSubmit, PatchReport}
    ensures e == Suspend <==> AsksQa(n)
    ensures e == Cancel <==> !AsksQa(n) && SaysCancel(n)
    ensures e == ConfirmSubmit <==> !AsksQa(n) && !SaysCancel(n) && SaysSubmit(n)
  {
    e := EventFor(Some(Ready), n);
  }

  /**
   * On a draft that was set aside: a switch to Q&A leaves it so; else a resume word takes it up where it was left; and
   * any other text takes it up by supplementing the report. On one that is being collected, only a switch to Q&A
   * does not supplement it.
   */
  lemma AsideSaid(
    db: Db, id: Identity, text: string, lower: string -> string, search: Search, now: int, timeout: int, i: nat)
    requires DbOk(db, Bindings(id)) && Bound(db, id, i, now) && lower("") == ""
    requires db.drafts[i].flow in {Collecting, Suspended}
    ensures BoundExists(db, Bindings(id))
    ensures var n := Normalized(text, lower);
      var r := Said(db, id, text, lower, search, now, timeout);
      if AsksQa(n) then
        if db.drafts[i].flow == Suspended then StillAside(db, r, i) else SetAside(db, r, i)
      else if db.drafts[i].flow == Suspended && SaysResume(n) then TakenUp(db, r, i)
      else Supplemented(db, r, i, Strip(text), search)
  {
    BoundInRange(db, Bindings(id));
    var req := Message(db, id, text, lower, search, now, timeout);
    var e := AsideEvent(db.drafts[i].flow, Normalized(text, lower));
    match e
    case Suspend =>
      if db.drafts[i].flow == Suspended { StaysAside(db, id, req, i); } else { SuspendsFrom(db, id, req, i); }
    case Resume => Resumes(db, id, req, i);
    case _ => Supplements(db, id, req, i);
  }

  lemma AsideEvent(flow: Flow, n: string) returns (e: Event)
    requires flow in {Collecting, Suspended}
    ensures e == EventFor(Some(flow), n) && e in {Suspend, Resume, PatchReport}
    ensures e == Suspend <==> AsksQa(n)
    ensures e == Resume <==> !AsksQa(n) && flow == Suspended && SaysResume(n)
  {
    e := EventFor(Some(flow), n);
  }

  ghost predicate StillAside(db: Db, r: (Db, Reply), i: nat)
    requires i < |db.drafts|
  {
    && r.1 == Decided(i, Suspended, HandoffQa, None)
    && i < |r.0.drafts| && r.0.drafts[i].flow == Suspended
    && ResumeTarget(r.0.drafts[i]) == ResumeTarget(db.drafts[i])
    && r.0.drafts[i].matchedId == db.drafts[i].matchedId && r.0.drafts[i].snapshot == db.drafts[i].snapshot
  }

  lemma StaysAside(db: Db, id: Identity, req: Request, i: nat)
    requires DbOk(db, Bindings(id)) && Bound(db, id, i, req.now)
    requires req.event == Suspend && db.drafts[i].flow == Suspended
    ensures BoundExists(db, Bindings(id)) && StillAside(db, Handle(db, id, req), i)
  {
    DecidedAs(db, id, req, i);
    BoundStays(db, id, req, i);
  }

  // ---------------------------------------------------------------------
  // New drafts
  // ---------------------------------------------------------------------

  /** A new draft was opened, and is the one the reply is about; its description is the text. */
  ghost predicate Opened(db: Db, r: (Db, Reply), text: string, now: int, timeout: int, search: Search) {
    var k := |db.drafts|;
    && r.1.Decided? && r.1.draft == k && |r.0.drafts| == k + 1
    && Description(r.0.drafts[k]) == text
    && (!Blank(text) ==>
          && "search_keyword" in r.0.drafts[k].fields
          && r.0.drafts[k].fields["search_keyword"] == Strip(if |text| <= 80 then text else text[..80]))
    && r.0.drafts[k].status == Active && r.0.drafts[k].expiresAt == now + timeout
    && Matched(r.0.drafts[k], r.1, search) && SameRows(db, r.0)
  }

  /** What becomes of a draft when another one is opened in its place. */
  ghost predicate Replaced(d: Draft, d': Draft, now: int) {
    if d.status == Active && d.expiresAt <= now then
      d'.flow == Expired && d'.status == StExpired && d'.closedAt == Some(now) && d'.fields == d.fields
    else if d.status == Active then
      d'.flow == Superseded && d'.status == StSuperseded && d'.closedAt == Some(now) && d'.fields == d.fields
    else d' == d
  }

  /** What START_REPORT is given of a text: nothing, or description and search keyword. */
  predicate StartPatch(patch: map<string, string>) {
    || patch == map[]
    || (patch.Keys == {DESCRIPTION, "search_keyword"} && !Blank(patch[DESCRIPTION]) && !Blank(patch["search_keyword"]))
  }

  /** The fields a new draft gets from it. */
  predicate StartFields(patch: map<string, string>, fields: map<string, string>) {
    if patch == map[] then DESCRIPTION !in fields
    else
      && DESCRIPTION in patch && "search_keyword" in patch && DESCRIPTION in fields && "search_keyword" in fields
      && fields[DESCRIPTION] == Strip(patch[DESCRIPTION])
      && fields["search_keyword"] == Strip(patch["search_keyword"])
  }

  lemma StartPatched(patch: map<string, string>)
    requires StartPatch(patch)
    ensures StartFields(patch, Patched(map[], patch, PATCH_FIELDS))
  {
    if patch == map[] {
      PatchNothing(map[], PATCH_FIELDS);
    } else {
      assert PATCH_FIELDS[1] == DESCRIPTION && PATCH_FIELDS[4] == "search_keyword";
      PatchedSets(map[], patch, PATCH_FIELDS, DESCRIPTION);
      PatchedSets(map[], patch, PATCH_FIELDS, "search_keyword");
    }
  }

  /** There is no bound draft, or one that takes no more changes and is not overdue. */
  ghost predicate NothingOpen(db: Db, id: Identity, now: int) {
    var b := FindBound(db, Bindings(id));
    b.Some? ==> b.value < |db.drafts| && Immutable(db.drafts[b.value].flow) && !PastDue(db.drafts[b.value], now)
  }

  lemma StartsWith(db: Db, id: Identity, req: Request)
    requires DbOk(db, Bindings(id)) && BoundExists(db, Bindings(id)) && NothingOpen(db, id, req.now)
    requires req.event == StartReport && !req.forceNew && StartPatch(req.patch)
    ensures var (db1, k) := Collected(db, id, req);
      && k == |db.drafts| && |db1.drafts| == k + 1 && SameRows(db, db1)
      && db1.drafts[k].flow == Collecting && db1.drafts[k].status == Active
      && db1.drafts[k].expiresAt == req.now + req.timeout && StartFields(req.patch, db1.drafts[k].fields)
      && (FindBound(db, Bindings(id)).Some? ==>
            (var i := FindBound(db, Bindings(id)).value; Replaced(db.drafts[i], db1.drafts[i], req.now)))
  {
    StartPatched(req.patch);
    var existing := FindBound(db, Bindings(id));
    assert existing.Some? ==> WantsNew(db, existing, req);
    assert FullPatch(db, existing, req) == req.patch;
    PicksNew(db, Bindings(id), WantsNew(db, existing, req), req.now, req.timeout);
  }

  lemma PicksNew(db: Db, keys: Keys, forceNew: bool, now: int, timeout: int)
    requires BoundExists(db, keys) && (FindBound(db, keys).Some? ==> forceNew)
    ensures var (db0, k) := PickDraft(db, keys, forceNew, now, timeout);
      && k == |db.drafts| && |db0.drafts| == k + 1 && db0.drafts[k] == NewDraft(now, timeout) && SameRows(db, db0)
      && (FindBound(db, keys).Some? ==>
            (var i := FindBound(db, keys).value; Replaced(db.drafts[i], db0.drafts[i], now)))
  {
  }

  /** A nonblank text starts with a character that is no space, and so does its prefix. */
  lemma PrefixNotBlank(text: string)
    requires !Blank(text)
    ensures !Blank(Prefix(Strip(text), 80))
  {
    StripEnds(text);
    RightStripEnds(Prefix(Strip(text), 80));
  }

  lemma OpensWith(db: Db, id: Identity, req: Request, text: string)
    requires DbOk(db, Bindings(id)) && BoundExists(db, Bindings(id)) && NothingOpen(db, id, req.now)
    requires req.event == StartReport && !req.forceNew && StartPatch(req.patch) && Strip(text) == text
    requires if Blank(text) then req.patch == map[]
             else req.patch == map[DESCRIPTION := text, "search_keyword" := Prefix(text, 80)]
    ensures Opened(db, Handle(db, id, req), text, req.now, req.timeout, req.search)
    ensures var b := FindBound(db, Bindings(id));
      b.Some? ==> Replaced(db.drafts[b.value], Handle(db, id, req).0.drafts[b.value], req.now)
  {
    StartsWith(db, id, req);
    var (db1, k) := Collected(db, id, req);
    var (d, reply) := Searched(db1.drafts[k], k, req.search, req.now);
    SearchedKeepsFields(db1.drafts[k], k, req.search, req.now);
    SearchedMatches(db1.drafts[k], k, req.search, req.now);
    assert Handle(db, id, req) == (Put(db1, k, d), reply);
  }

  /**
   * Without a draft, or on one that takes no more changes: a switch to Q&A is refused; any other text opens a new
   * draft described by it, and the one before is left as it was unless it was still active: then it is superseded.
   */
  lemma FreshSaid(db: Db, id: Identity, text: string, lower: string -> string, search: Search, now: int, timeout: int)
    requires DbOk(db, Bindings(id)) && lower("") == "" && NothingOpen(db, id, now)
    ensures BoundExists(db, Bindings(id))
    ensures var r := Said(db, id, text, lower, search, now, timeout);
      var b := FindBound(db, Bindings(id));
      if AsksQa(Normalized(text, lower)) then r == (db, Invalid)
      else
        && Opened(db, r, Strip(text), now, timeout, search)
        && (b.Some? ==> Replaced(db.drafts[b.value], r.0.drafts[b.value], now))
  {
    BoundInRange(db, Bindings(id));
    var req := Message(db, id, text, lower, search, now, timeout);
    if AsksQa(Normalized(text, lower)) {
      ChosenEventRefused(db, id, text, lower, search, now, timeout);
      HandleOk(db, id, req);
    } else {
      FreshMessage(db, id, text, lower, search, now, timeout);
      OpensWith(db, id, req, Strip(text));
    }
  }

  lemma FreshMessage(db: Db, id: Identity, text: string, lower: string -> string, search: Search, now: int, timeout: int)
    requires BoundExists(db, Bindings(id)) && NothingOpen(db, id, now) && !AsksQa(Normalized(text, lower))
    ensures Strip(Strip(text)) == Strip(text)
    ensures var req := Message(db, id, text, lower, search, now, timeout);
      && req.event == StartReport && !req.forceNew && StartPatch(req.patch)
      && req.now == now && req.timeout == timeout && req.search == search
      && req.patch == if Blank(Strip(text)) then map[]
                      else map[DESCRIPTION := Strip(text), "search_keyword" := Prefix(Strip(text), 80)]
  {
    FreshEvent(CurrentState(db, id), Normalized(text, lower));
    StripTwice(text);
    if !Blank(text) {
      PrefixNotBlank(text);
      assert DESCRIPTION != "search_keyword";
    }
  }

  lemma FreshEvent(state: Option<Flow>, n: string)
    requires state.Some? ==> Immutable(state.value)
    ensures EventFor(state, n) == if AsksQa(n) then Suspend else StartReport
  {
  }

  /**
   * On an overdue draft: a text that answers its question is refused; any other text expires it and is taken on a new
   * draft, bound in its place.
   */
  lemma OverdueSaid(
    db: Db, id: Identity, text: string, lower: string -> string, search: Search, now: int, timeout: int, i: nat)
    requires DbOk(db, Bindings(id)) && FindBound(db, Bindings(id)) == Some(i) && i < |db.drafts|
    requires db.drafts[i].status == Active && db.drafts[i].expiresAt <= now && lower("") == ""
    ensures BoundExists(db, Bindings(id))
    ensures var r := Said(db, id, text, lower, search, now, timeout);
      if AnswersQuestion(db.drafts[i].flow, Normalized(text, lower)) then r == (db, Invalid)
      else
        && r.1.Decided? && r.1.draft == |db.drafts| && |r.0.drafts| == |db.drafts| + 1
        && Replaced(db.drafts[i], r.0.drafts[i], now)
        && IsCurrent(r.0, Bindings(id), |db.drafts|)
  {
    BoundInRange(db, Bindings(id));
    var req := Message(db, id, text, lower, search, now, timeout);
    ChosenEventRefused(db, id, text, lower, search, now, timeout);
    HandleOk(db, id, req);
    if !AnswersQuestion(db.drafts[i].flow, Normalized(text, lower)) {
      if !IsCollecting(req.event) {
        DecidingHasText(CurrentState(db, id), text, lower);
      }
      OverdueReplaced(db, id, req, i);
    }
  }

  lemma OverdueReplaced(db: Db, id: Identity, req: Request, i: nat)
    requires DbOk(db, Bindings(id)) && BoundExists(db, Bindings(id)) && Bindings(id) != []
    requires FindBound(db, Bindings(id)) == Some(i) && i < |db.drafts| && PastDue(db.drafts[i], req.now)
    requires (IsCollecting(req.event) || req.text != "") && Handle(db, id, req).1.Decided?
    ensures var r := Handle(db, id, req);
      r.1.draft == |db.drafts| && |r.0.drafts| == |db.drafts| + 1 && Replaced(db.drafts[i], r.0.drafts[i], req.now)
  {
    if IsCollecting(req.event) {
      var (db1, k) := Collected(db, id, req);
      var (d, reply) := Searched(db1.drafts[k], k, req.search, req.now);
      assert Handle(db, id, req) == (Put(db1, k, d), reply);
    } else {
      var at := Deciding(db, id, req);
      assert at.1 == |db.drafts| && |at.0.drafts| == |db.drafts| + 1;
      assert Replaced(db.drafts[i], at.0.drafts[i], req.now);
      assert Handle(db, id, req) == OrRollback(db, Decide(at.0, id, at.1, req));
      DecideElsewhere(at.0, id, at.1, req, i);
    }
  }

  lemma DecideElsewhere(db: Db, id: Identity, k: nat, req: Request, i: nat)
    requires k < |db.drafts| && i < |db.drafts| && i != k
    ensures var r := Decide(db, id, k, req);
      && |r.0.drafts| == |db.drafts| && r.0.drafts[i] == db.drafts[i] && (r.1.Decided? ==> r.1.draft == k)
  {
  }
  /** A decision with a text renews an active draft's time and records the message; one without does neither. */
  lemma TextRenews(db: Db, id: Identity, req: Request, i: nat)
    requires DbOk(db, Bindings(id)) && Bound(db, id, i, req.now) && !IsCollecting(req.event)
    ensures BoundExists(db, Bindings(id))
    ensures var (db1, k) := Deciding(db, id, req);
      && k == i && db1.drafts[i].fields == db.drafts[i].fields
      && (req.text == "" ==> db1 == db)
      && (req.text != "" ==>
            && db1.drafts[i].events == db.drafts[i].events + [StateEvent(EventReceived, Some(db.drafts[i].flow), db.drafts[i].flow)]
            && db1.drafts[i].expiresAt ==
               if db.drafts[i].status == Active then req.now + req.timeout else db.drafts[i].expiresAt)
  {
    BoundStays(db, id, req, i);
    PatchNothing(db.drafts[i].fields, PATCH_FIELDS);
  }
}
