/**
 * The bug assistant as it runs: rows are read, changed and written one at a time. Each method is proved to leave
 * the tables exactly as the specification functions of `BugDrafts` say.
 */
module BugAssistant {
  import opened Wrappers
  import opened Text
  import opened BugDrafts

  class BugTables {
    var drafts: seq<Draft>
    var bindings: map<(string, string), nat>
    var issues: seq<Issue>
    var reports: map<nat, Report>
    var outbox: map<nat, Outbox>
    var subscriptions: set<Subscriber>

    ghost function Value(): Db
      reads this
    {
      Db(drafts, bindings, issues, reports, outbox, subscriptions)
    }

    constructor ()
      ensures Value() == Db([], map[], [], map[], map[], {})
    {
      drafts, bindings, issues, reports, outbox, subscriptions := [], map[], [], map[], map[], {};
    }

    // -------------------------------------------------------------------
    // BugtrackService
    // -------------------------------------------------------------------

    method FindBoundDraft(keys: seq<(string, string)>) returns (found: Option<nat>)
      ensures found == FindBound(Value(), keys)
    {
      var k := 0;
      while k < |keys|
        invariant 0 <= k <= |keys|
        invariant FindBound(Value(), keys) == FindBound(Value(), keys[k..])
      {
        if keys[k] in bindings {
          return Some(bindings[keys[k]]);
        }
        assert keys[k..][1..] == keys[k + 1..];
        k := k + 1;
      }
      found := None;
    }

    method UpsertBindings(draft: nat, keys: seq<(string, string)>)
      modifies this`bindings
      ensures bindings == Bind(old(bindings), keys, draft)
    {
      var k := 0;
      while k < |keys|
        invariant 0 <= k <= |keys|
        invariant Bind(old(bindings), keys, draft) == Bind(bindings, keys[k..], draft)
      {
        assert keys[k..][1..] == keys[k + 1..];
        bindings := bindings[keys[k] := draft];
        k := k + 1;
      }
    }

    method RecordEvent(i: nat, kind: EventKind, from: Option<Flow>)
      requires i < |drafts|
      modifies this`drafts
      ensures drafts == old(drafts)[i := Log(old(drafts[i]), kind, from)]
    {
      var d := drafts[i];
      drafts := drafts[i := d.(events := d.events + [StateEvent(kind, from, d.flow)])];
    }

    method ChangeState(i: nat, kind: EventKind, flow: Flow, status: Option<Status>, now: int)
      requires i < |drafts|
      modifies this`drafts
      ensures drafts == old(drafts)[i := Transition(old(drafts[i]), kind, flow, status, now)]
    {
      var oldState := drafts[i].flow;
      drafts := drafts[i := drafts[i].(flow := flow)];
      if status.Some? {
        drafts := drafts[i := drafts[i].(status := status.value)];
      }
      if drafts[i].status != Active && drafts[i].closedAt.None? {
        drafts := drafts[i := drafts[i].(closedAt := Some(now))];
      }
      RecordEvent(i, kind, Some(oldState));
    }

    method PatchFields(i: nat, patch: map<string, string>)
      requires i < |drafts|
      modifies this`drafts
      ensures drafts == old(drafts)[i := old(drafts[i]).(fields := Patched(old(drafts[i].fields), patch, PATCH_FIELDS))]
    {
      var k := 0;
      while k < |PATCH_FIELDS|
        invariant 0 <= k <= |PATCH_FIELDS|
        invariant |drafts| == |old(drafts)|
        invariant drafts == old(drafts)[i := old(drafts[i]).(fields := drafts[i].fields)]
        invariant Patched(old(drafts[i].fields), patch, PATCH_FIELDS) == Patched(drafts[i].fields, patch, PATCH_FIELDS[k..])
      {
        var field := PATCH_FIELDS[k];
        assert PATCH_FIELDS[k..][1..] == PATCH_FIELDS[k + 1..];
        if field in patch && !Blank(patch[field]) {
          drafts := drafts[i := drafts[i].(fields := drafts[i].fields[field := Strip(patch[field])])];
        }
        k := k + 1;
      }
    }

    method Close(i: nat, kind: EventKind, status: Status, flow: Flow, now: int)
      requires i < |drafts|
      modifies this`drafts
      ensures drafts == old(drafts)[i :=
        Log(old(drafts[i]).(status := status, flow := flow, closedAt := Some(now)), kind, Some(old(drafts[i].flow)))]
    {
      var oldState := drafts[i].flow;
      drafts := drafts[i := drafts[i].(status := status, flow := flow, closedAt := Some(now))];
      RecordEvent(i, kind, Some(oldState));
    }

    method Select(id: Identity, forceNew: bool, now: int, timeout: int) returns (i: nat)
      requires BoundExists(Value(), Bindings(id))
      modifies this`drafts
      ensures (Value(), i) == PickDraft(old(Value()), Bindings(id), forceNew, now, timeout)
    {
      var opens := forceNew;
      var found := FindBoundDraft(Bindings(id));
      if found.Some? && drafts[found.value].status == Active && drafts[found.value].expiresAt <= now {
        Close(found.value, DraftExpired, StExpired, Expired, now);
        opens := true;
      }
      if opens || found.None? {
        if found.Some? && drafts[found.value].status == Active {
          Close(found.value, DraftSuperseded, StSuperseded, Superseded, now);
        }
        assert found.Some? ==> drafts == old(drafts)[found.value := Retired(old(drafts[found.value]), now)];
        i := |drafts|;
        drafts := drafts + [Draft(Active, Collecting, map[], "", NO_CANDIDATE, "", now + timeout, None, None, [])];
        ghost var before := drafts;
        RecordEvent(i, DraftCreated, None);
        assert drafts == before[..i] + [NewDraft(now, timeout)];
      } else {
        i := found.value;
      }
    }

    method Ensure(
      id: Identity, forceNew: bool, patch: map<string, string>, kind: EventKind, now: int, timeout: int)
      returns (i: nat)
      requires BoundExists(Value(), Bindings(id))
      modifies this
      ensures (Value(), i) == EnsureDraft(old(Value()), id, forceNew, patch, kind, now, timeout)
    {
      i := Select(id, forceNew, now, timeout);
      ghost var picked := drafts;
      PatchFields(i, patch);
      if drafts[i].status == Active {
        drafts := drafts[i := drafts[i].(expiresAt := now + timeout)];
      }
      UpsertBindings(i, Bindings(id));
      RecordEvent(i, kind, Some(drafts[i].flow));
      assert drafts == picked[i := Touch(picked[i], patch, kind, now, timeout)];
    }

    // -------------------------------------------------------------------
    // BugAssistantOrchestrator
    // -------------------------------------------------------------------

    method Gather(id: Identity, req: Request) returns (i: nat)
      requires BoundExists(Value(), Bindings(id))
      modifies this
      ensures (Value(), i) == Collected(old(Value()), id, req)
    {
      var existing := FindBoundDraft(Bindings(id));
      var forceNew := req.forceNew;
      if req.event == StartReport && existing.Some? {
        if drafts[existing.value].status != Active || Immutable(drafts[existing.value].flow) {
          forceNew := true;
        }
      }
      var patch := req.patch;
      if req.event == PatchReport && existing.Some? && !Blank(req.text)
         && !(DESCRIPTION in patch && !Blank(patch[DESCRIPTION]))
      {
        var current := Strip(Description(drafts[existing.value]));
        var supplement := Strip(req.text);
        patch := patch[DESCRIPTION := if current == "" then supplement else current + "\n补充：" + supplement];
      }
      i := Ensure(id, forceNew, patch, if req.event == StartReport then ReportStarted else ReportPatched,
                  req.now, req.timeout);
    }

    method Collect(id: Identity, req: Request) returns (reply: Reply)
      requires BoundExists(Value(), Bindings(id))
      modifies this
      ensures reply.Decided? ==> (Value(), reply) == CollectAndMatch(old(Value()), id, req)
      ensures reply.Invalid? ==> CollectAndMatch(old(Value()), id, req) == (old(Value()), Invalid)
    {
      var i := Gather(id, req);
      if Immutable(drafts[i].flow) {
        return Invalid;
      }
      reply := MatchCandidates(i, req.search, req.now);
    }

    method MatchCandidates(i: nat, search: Search, now: int) returns (reply: Reply)
      requires i < |drafts|
      modifies this`drafts
      ensures reply == Searched(old(drafts[i]), i, search, now).1
      ensures drafts == old(drafts)[i := Searched(old(drafts[i]), i, search, now).0]
    {
      if Blank(Description(drafts[i])) {
        ChangeState(i, InformationRequired, Collecting, None, now);
        return Decided(i, Collecting, RequestInformation, None);
      }
      ChangeState(i, SearchStarted, Matching, None, now);
      match search {
        case SearchRaised =>
          ChangeState(i, SearchFailed, Collecting, None, now);
          reply := Decided(i, Collecting, RetryMatching, None);
        case Found(best) =>
          drafts := drafts[i := drafts[i].(matchedId := best.recordId)];
          drafts := drafts[i := drafts[i].(snapshot := best)];
          ChangeState(i, CandidatePresented, Awaiting, None, now);
          reply := Decided(i, Awaiting, AskConfirmMatch, None);
        case NothingFound =>
          drafts := drafts[i := drafts[i].(matchedId := "")];
          drafts := drafts[i := drafts[i].(snapshot := NO_CANDIDATE)];
          ChangeState(i, NoCandidate, Ready, None, now);
          reply := Decided(i, Ready, AskConfirmSubmit, None);
      }
    }

    method ConfirmMatchEvent(id: Identity, i: nat, now: int) returns (reply: Reply)
      requires i < |drafts|
      modifies this
      ensures (Value(), reply) == ConfirmMatchStep(old(Value()), id, i, now)
    {
      var d := drafts[i];
      if d.flow == Linked {
        return Decided(i, d.flow, Completed, if i in reports then Some(reports[i].issue) else None);
      }
      if d.flow != Awaiting || d.matchedId == "" {
        return Invalid;
      }
      var k;
      var found := FindFeishu(issues, d.matchedId);
      if found.Some? && found.value < |issues| {
        k := found.value;
        issues := issues[k := issues[k].(snapshot := d.snapshot)];
        if d.snapshot.status != "" {
          issues := issues[k := issues[k].(status := d.snapshot.status)];
        }
      } else {
        k := |issues|;
        issues := issues + [Issue(Feishu, d.matchedId, Or(d.snapshot.status, "unknown"), d.snapshot, None)];
      }
      reports := EnsureReport(reports, i, k, RLinked, ConfirmedDuplicate, d.matchedId, true, now);
      subscriptions := EnsureSubscription(subscriptions, k, id);
      if drafts[i].submittedAt.None? {
        drafts := drafts[i := drafts[i].(submittedAt := Some(now))];
      }
      assert issues == EnsureExternalIssue(old(issues), d).0 && k == EnsureExternalIssue(old(issues), d).1;
      ChangeState(i, ExistingLinked, Linked, Some(StSubmitted), now);
      assert drafts == old(drafts)[i := drafts[i]];
      reply := Decided(i, Linked, Completed, Some(k));
    }

    method RejectMatchEvent(i: nat, now: int) returns (reply: Reply)
      requires i < |drafts|
      modifies this`drafts
      ensures (Value(), reply) == RejectMatchStep(old(Value()), i, now)
    {
      if drafts[i].flow != Awaiting {
        return Invalid;
      }
      drafts := drafts[i := drafts[i].(matchedId := "")];
      drafts := drafts[i := drafts[i].(snapshot := NO_CANDIDATE)];
      ChangeState(i, CandidateRejected, Ready, None, now);
      assert drafts == old(drafts)[i := drafts[i]];
      reply := Decided(i, Ready, AskConfirmSubmit, None);
    }

    method ConfirmSubmitEvent(id: Identity, i: nat, now: int) returns (reply: Reply)
      requires i < |drafts|
      modifies this
      ensures (Value(), reply) == ConfirmSubmitStep(old(Value()), id, i, now)
    {
      var flow := drafts[i].flow;
      if flow == Queued || flow == Submitted {
        return Decided(i, flow, WaitForSync, if i in reports then Some(reports[i].issue) else None);
      }
      if flow != Ready {
        return Invalid;
      }
      var k := |issues|;
      issues := issues + [Issue(Local, "", "pending_sync", NO_CANDIDATE, Some(i))];
      reports := EnsureReport(reports, i, k, RQueued, NewIssue, "", false, now);
      subscriptions := EnsureSubscription(subscriptions, k, id);
      if i in outbox {
        outbox := outbox[i := Outbox(Processing, outbox[i].attempts + 1, k)];
      } else {
        outbox := outbox[i := Outbox(Processing, 1, k)];
      }
      ChangeState(i, SubmissionQueued, Queued, Some(Active), now);
      reply := Decided(i, Queued, WaitForSync, Some(k));
    }

    method SuspendEvent(i: nat, now: int) returns (reply: Reply)
      requires i < |drafts|
      modifies this`drafts
      ensures (Value(), reply) == SuspendStep(old(Value()), i, now)
    {
      var flow := drafts[i].flow;
      if flow != Suspended {
        if Immutable(flow) {
          return Invalid;
        }
        ChangeState(i, AssistantSuspended, Suspended, None, now);
      }
      reply := Decided(i, Suspended, HandoffQa, None);
    }

    method ResumeEvent(i: nat, now: int) returns (reply: Reply)
      requires i < |drafts|
      modifies this`drafts
      ensures (Value(), reply) == ResumeStep(old(Value()), i, now)
    {
      if drafts[i].flow != Suspended {
        return Invalid;
      }
      var target := ResumeTarget(drafts[i]);
      ChangeState(i, AssistantResumed, target, None, now);
      reply := Decided(i, target, ResumeAction(target), None);
    }

    method CancelEvent(i: nat, now: int) returns (reply: Reply)
      requires i < |drafts|
      modifies this`drafts
      ensures (Value(), reply) == CancelStep(old(Value()), i, now)
    {
      var flow := drafts[i].flow;
      if flow != Abandoned {
        if Immutable(flow) {
          return Invalid;
        }
        ChangeState(i, AssistantAbandoned, Abandoned, Some(StAbandoned), now);
      }
      reply := Decided(i, Abandoned, Completed, None);
    }

    method Dispatch(id: Identity, i: nat, req: Request) returns (reply: Reply)
      requires i < |drafts|
      modifies this
      ensures (Value(), reply) == Decide(old(Value()), id, i, req)
    {
      match req.event
      case ConfirmMatch => reply := ConfirmMatchEvent(id, i, req.now);
      case RejectMatch => reply := RejectMatchEvent(i, req.now);
      case ConfirmSubmit => reply := ConfirmSubmitEvent(id, i, req.now);
      case Suspend => reply := SuspendEvent(i, req.now);
      case Resume => reply := ResumeEvent(i, req.now);
      case _ => reply := CancelEvent(i, req.now);
    }

    method Decision(id: Identity, req: Request) returns (reply: Reply)
      requires BoundExists(Value(), Bindings(id)) && FindBound(Value(), Bindings(id)).Some?
      modifies this
      ensures var at := Deciding(old(Value()), id, req);
        (Value(), reply) == Decide(at.0, id, at.1, req)
    {
      var found := FindBoundDraft(Bindings(id));
      var i := found.value;
      if req.text != "" {
        i := Ensure(id, false, map[], EventReceived, req.now, req.timeout);
      }
      reply := Dispatch(id, i, req);
    }

    /** The work of a call inside its transaction; a refusal leaves it to be rolled back. */
    method Act(id: Identity, req: Request) returns (reply: Reply)
      requires BoundExists(Value(), Bindings(id))
      modifies this
      ensures reply.Decided? ==> (Value(), reply) == Handle(old(Value()), id, req)
      ensures reply.Invalid? ==> Handle(old(Value()), id, req) == (old(Value()), Invalid)
    {
      ghost var before := Value();
      if req.event == StartReport || req.event == PatchReport {
        reply := Collect(id, req);
      } else {
        var found := FindBoundDraft(Bindings(id));
        if found.None? {
          return Invalid;
        }
        reply := Decision(id, req);
        ghost var at := Deciding(before, id, req);
        assert Handle(before, id, req) == OrRollback(before, Decide(at.0, id, at.1, req));
      }
    }

    /** One transaction: when the handler raises, every table goes back to what it was. */
    method HandleEvent(id: Identity, req: Request) returns (reply: Reply)
      requires BoundExists(Value(), Bindings(id))
      modifies this
      ensures (Value(), reply) == Handle(old(Value()), id, req)
    {
      var saved := (drafts, bindings, issues, reports, outbox, subscriptions);
      reply := Act(id, req);
      if reply.Invalid? {
        drafts, bindings, issues, reports, outbox, subscriptions := saved.0, saved.1, saved.2, saved.3, saved.4, saved.5;
        assert Value() == old(Value());
      }
    }
  }
}
