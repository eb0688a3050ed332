/**
 * How a chat message becomes an event of the bug assistant: `_event_for` and the request `_process` builds
 * (app/services/bug_assistant_message_service.py). Lower-casing is a parameter: any function of the text.
 */
module BugMessages {
  import opened Wrappers
  import opened Text
  import opened BugDrafts
  import opened BugDraftRules
  import opened BugDraftSteps
  import opened BugDraftRuns

  const CONFIRM_TEXTS: set<string> := {
    "确认", "确认提交", "提交", "是", "是的", "对", "对的", "可以", "没问题", "确认记录", "确认相同",
    "是同一个", "是同一个问题", "同一个", "同一个问题"}
  const REJECT_MATCH_TEXTS: set<string> := {
    "不是", "不是的", "不一样", "不是同一个", "不是同一个问题", "不同问题", "新问题", "no"}
  const REJECT_MATCH_MARKERS: seq<string> := ["不是同一个", "不是这个", "不一样", "不同问题", "新问题"]
  const CONFIRM_MATCH_MARKERS: seq<string> := ["确认相同", "是同一个", "同一个问题"]
  const CANCEL_WORDS: seq<string> := ["取消", "算了", "不报了", "不用提交", "放弃"]
  const QA_SWITCH_WORDS: set<string> := {"先查询解决方法", "查询解决方法", "先查解决方法", "转知识库", "问一下怎么解决"}
  const CONFIRM_MATCH_WORDS: set<string> := {"confirm", "yes", "xácnhận"}
  const CONFIRM_SUBMIT_WORDS: set<string> := {"confirm", "submit", "yes", "xácnhận"}
  const RESUME_WORDS: set<string> := {"继续反馈", "恢复反馈", "继续提交", "resume"}

  /** "".join(s.split()) */
  function Unspaced(s: string): string {
    if s == "" then "" else (if IsSpace(s[0]) then "" else s[..1]) + Unspaced(s[1..])
  }

  function Normalized(text: string, lower: string -> string): string {
    Unspaced(lower(Strip(text)))
  }

  predicate AnyIn(words: seq<string>, s: string) {
    exists k :: 0 <= k < |words| && Contains(s, words[k])
  }

  /** `_event_for` on the normalized text; the state is empty when no draft is bound. */
  function EventFor(state: Option<Flow>, normalized: string): Event {
    if normalized in QA_SWITCH_WORDS then Suspend
    else if state == Some(Awaiting) then
      if AnyIn(CANCEL_WORDS, normalized) then Cancel
      else if normalized in REJECT_MATCH_TEXTS || AnyIn(REJECT_MATCH_MARKERS, normalized) then RejectMatch
      else if normalized in CONFIRM_TEXTS || AnyIn(CONFIRM_MATCH_MARKERS, normalized)
              || normalized in CONFIRM_MATCH_WORDS then ConfirmMatch
      else PatchReport
    else if state == Some(Ready) then
      if AnyIn(CANCEL_WORDS, normalized) then Cancel
      else if normalized in CONFIRM_TEXTS || normalized in CONFIRM_SUBMIT_WORDS then ConfirmSubmit
      else PatchReport
    else if state in {Some(Collecting), Some(Matching), Some(Suspended)} then
      if state == Some(Suspended) && normalized in RESUME_WORDS then Resume else PatchReport
    else StartReport
  }

  // ---------------------------------------------------------------------
  // What a text says, once its spaces and case are gone
  // ---------------------------------------------------------------------

  predicate AsksQa(n: string) {
    n in QA_SWITCH_WORDS
  }

  predicate SaysCancel(n: string) {
    exists k :: 0 <= k < |CANCEL_WORDS| && Contains(n, CANCEL_WORDS[k])
  }

  predicate SaysOther(n: string) {
    n in REJECT_MATCH_TEXTS || exists k :: 0 <= k < |REJECT_MATCH_MARKERS| && Contains(n, REJECT_MATCH_MARKERS[k])
  }

  predicate SaysSame(n: string) {
    || n in CONFIRM_TEXTS || n in CONFIRM_MATCH_WORDS
    || exists k :: 0 <= k < |CONFIRM_MATCH_MARKERS| && Contains(n, CONFIRM_MATCH_MARKERS[k])
  }

  predicate SaysSubmit(n: string) {
    n in CONFIRM_TEXTS || n in CONFIRM_SUBMIT_WORDS
  }

  predicate SaysResume(n: string) {
    n in RESUME_WORDS
  }

  /** The text answers what a draft in this state had asked, or asks for a draft that was set aside. */
  predicate AnswersQuestion(flow: Flow, n: string) {
    && !AsksQa(n)
    && match flow
       case Awaiting => !SaysCancel(n) && (SaysOther(n) || SaysSame(n))
       case Ready => !SaysCancel(n) && SaysSubmit(n)
       case Suspended => SaysResume(n)
       case _ => false
  }

  // ---------------------------------------------------------------------
  // The request made of a text
  // ---------------------------------------------------------------------

  function CurrentState(db: Db, id: Identity): Option<Flow>
    requires BoundExists(db, Bindings(id))
  {
    match FindBound(db, Bindings(id))
    case None => None
    case Some(i) => Some(db.drafts[i].flow)
  }

  function Prefix(s: string, n: nat): string {
    if |s| <= n then s else s[..n]
  }

  /** The request `_process` makes of a text message. */
  function Message(
    db: Db, id: Identity, text: string, lower: string -> string, search: Search, now: int, timeout: int): Request
    requires BoundExists(db, Bindings(id))
  {
    var event := EventFor(CurrentState(db, id), Normalized(text, lower));
    var patch :=
      if event == StartReport && !Blank(text)
      then map[DESCRIPTION := Strip(text), "search_keyword" := Prefix(Strip(text), 80)] else map[];
    Request(event, Strip(text), patch, false, search, now, timeout)
  }

  // ---------------------------------------------------------------------
  // Chosen events are accepted
  // ---------------------------------------------------------------------

  lemma NothingInEmpty(words: seq<string>)
    requires forall k :: 0 <= k < |words| ==> words[k] != ""
    ensures !AnyIn(words, "")
  {
  }

  /** An empty message never decides anything. */
  lemma EmptyTextCollects(state: Option<Flow>)
    ensures EventFor(state, "") in {StartReport, PatchReport}
  {
    NothingInEmpty(CANCEL_WORDS);
    NothingInEmpty(REJECT_MATCH_MARKERS);
    NothingInEmpty(CONFIRM_MATCH_MARKERS);
  }

  lemma DecidingHasText(state: Option<Flow>, text: string, lower: string -> string)
    requires lower("") == ""
    requires EventFor(state, Normalized(text, lower)) !in {StartReport, PatchReport}
    ensures Strip(text) != ""
  {
    EmptyTextCollects(state);
  }

  /** Which events a draft in a given state takes. */
  predicate Takes(flow: Flow, event: Event) {
    match event
    case StartReport => true
    case PatchReport => !Immutable(flow)
    case ConfirmMatch => flow == Awaiting || flow == Linked
    case RejectMatch => flow == Awaiting
    case ConfirmSubmit => flow == Ready || flow == Queued || flow == Submitted
    case Suspend => !Immutable(flow)
    case Resume => flow == Suspended
    case Cancel => !Immutable(flow) || flow == Abandoned
  }

  lemma DecideTakes(db: Db, id: Identity, i: nat, req: Request)
    requires DbOk(db, Bindings(id)) && IsCurrent(db, Bindings(id), i) && req.event !in {StartReport, PatchReport}
    ensures Decide(db, id, i, req).1.Decided? <==> Takes(db.drafts[i].flow, req.event)
  {
    assert RowOk(db.outbox, db.reports, db.issues, i, db.drafts[i]);
  }

  /** The draft a call ends up on: the bound one, or a new one when that is overdue. */
  function ActedOn(d: Draft, now: int): Flow {
    if PastDue(d, now) then Collecting else d.flow
  }

  lemma DecidingFlow(db: Db, id: Identity, req: Request, i: nat)
    requires DbOk(db, Bindings(id)) && FindBound(db, Bindings(id)) == Some(i) && i < |db.drafts|
    requires req.text != "" && BoundExists(db, Bindings(id))
    ensures var (db1, k) := Deciding(db, id, req); db1.drafts[k].flow == ActedOn(db.drafts[i], req.now)
  {
    if !PastDue(db.drafts[i], req.now) {
      BoundStays(db, id, req, i);
    }
  }

  /** A deciding event with a text is refused exactly when the draft it ends up on does not take it. */
  lemma DecisionRefused(db: Db, id: Identity, req: Request, i: nat)
    requires DbOk(db, Bindings(id)) && FindBound(db, Bindings(id)) == Some(i) && i < |db.drafts|
    requires req.text != "" && req.event !in {StartReport, PatchReport} && BoundExists(db, Bindings(id))
    ensures Handle(db, id, req).1.Invalid? <==> !Takes(ActedOn(db.drafts[i], req.now), req.event)
  {
    DecidingOk(db, id, req);
    DecidingFlow(db, id, req, i);
    var at := Deciding(db, id, req);
    DecideTakes(at.0, id, at.1, req);
    assert Handle(db, id, req) == OrRollback(db, Decide(at.0, id, at.1, req));
  }

  lemma CollectedFlow(db: Db, id: Identity, req: Request)
    requires DbOk(db, Bindings(id)) && BoundExists(db, Bindings(id)) && !req.forceNew
    ensures var (db1, k) := Collected(db, id, req);
      db1.drafts[k].flow ==
      match FindBound(db, Bindings(id))
      case None => Collecting
      case Some(i) =>
        if req.event == StartReport && Immutable(db.drafts[i].flow) then Collecting
        else ActedOn(db.drafts[i], req.now)
  {
    if FindBound(db, Bindings(id)).Some? {
      NeverMatching(db, FindBound(db, Bindings(id)).value);
    }
  }

  /** A collecting event is refused exactly when PATCH_REPORT meets a draft that takes no more changes. */
  lemma CollectingRefused(db: Db, id: Identity, req: Request)
    requires DbOk(db, Bindings(id)) && BoundExists(db, Bindings(id)) && !req.forceNew
    requires req.event in {StartReport, PatchReport}
    ensures Handle(db, id, req).1.Invalid? <==>
      (FindBound(db, Bindings(id)).Some? && req.event == PatchReport
       && Immutable(ActedOn(db.drafts[FindBound(db, Bindings(id)).value], req.now)))
  {
    CollectedFlow(db, id, req);
    CollectedOk(db, id, req);
    var (db1, k) := Collected(db, id, req);
    NeverMatching(db1, k);
    if !Immutable(db1.drafts[k].flow) {
      SearchedOk(db1.drafts[k], k, req.search, req.now);
    }
  }

  lemma BoundRefused(db: Db, id: Identity, req: Request, i: nat)
    requires DbOk(db, Bindings(id)) && FindBound(db, Bindings(id)) == Some(i) && i < |db.drafts|
    requires BoundExists(db, Bindings(id)) && !req.forceNew
    requires req.event in {StartReport, PatchReport} || req.text != ""
    ensures Handle(db, id, req).1.Invalid? <==> !Takes(ActedOn(db.drafts[i], req.now), req.event)
  {
    if req.event in {StartReport, PatchReport} {
      CollectingRefused(db, id, req);
    } else {
      DecisionRefused(db, id, req, i);
    }
  }

  /** The event picked for a live state is one the draft takes, unless the text asks to switch to Q&A. */
  lemma ChosenTaken(flow: Flow, normalized: string)
    requires flow !in {Matching, Expired, Superseded}
    ensures var e := EventFor(Some(flow), normalized);
      && (Takes(flow, e) <==> !(normalized in QA_SWITCH_WORDS && Immutable(flow)))
      && (e == PatchReport ==> !Immutable(flow))
  {
  }

  /** A fresh draft takes everything but the answers to a question it never asked. */
  lemma FreshTakes(event: Event)
    ensures Takes(Collecting, event) <==> event !in {ConfirmMatch, RejectMatch, ConfirmSubmit, Resume}
  {
  }

  lemma EventWithoutDraft(normalized: string)
    ensures EventFor(None, normalized) == if normalized in QA_SWITCH_WORDS then Suspend else StartReport
  {
  }

  lemma RefusedWithoutDraft(db: Db, id: Identity, req: Request)
    requires DbOk(db, Bindings(id)) && BoundExists(db, Bindings(id)) && FindBound(db, Bindings(id)) == None
    requires !req.forceNew && req.event in {StartReport, Suspend}
    ensures Handle(db, id, req).1.Invalid? <==> req.event == Suspend
  {
    if req.event == StartReport {
      CollectingRefused(db, id, req);
    }
  }

  lemma AnswerEvents(flow: Flow, n: string)
    ensures AnswersQuestion(flow, n) <==> EventFor(Some(flow), n) in {ConfirmMatch, RejectMatch, ConfirmSubmit, Resume}
  {
  }

  lemma RefusedOnDraft(flow: Flow, acted: Flow, overdue: bool, normalized: string)
    requires flow !in {Matching, Expired, Superseded} && acted == if overdue then Collecting else flow
    ensures var e := EventFor(Some(flow), normalized);
      Takes(acted, e) <==>
        if overdue then !AnswersQuestion(flow, normalized)
        else !(normalized in QA_SWITCH_WORDS && Immutable(flow))
  {
    if overdue {
      FreshTakes(EventFor(Some(flow), normalized));
      AnswerEvents(flow, normalized);
    } else {
      ChosenTaken(flow, normalized);
    }
  }

  /**
   * When a text message is refused. On a draft that is not overdue: exactly when it is a switch to Q&A and the draft
   * takes no more changes. Without a draft: exactly when it is a switch to Q&A. On an overdue draft, which the
   * message itself replaces by a fresh one: exactly when it answers a question the old draft had asked.
   */
  lemma ChosenEventRefused(
    db: Db, id: Identity, text: string, lower: string -> string, search: Search, now: int, timeout: int)
    requires DbOk(db, Bindings(id)) && lower("") == ""
    ensures BoundExists(db, Bindings(id))
    ensures var normalized := Normalized(text, lower);
      Handle(db, id, Message(db, id, text, lower, search, now, timeout)).1.Invalid? <==>
      match FindBound(db, Bindings(id))
      case None => normalized in QA_SWITCH_WORDS
      case Some(i) =>
        if PastDue(db.drafts[i], now)
        then AnswersQuestion(db.drafts[i].flow, normalized)
        else normalized in QA_SWITCH_WORDS && Immutable(db.drafts[i].flow)
  {
    BoundInRange(db, Bindings(id));
    var req := Message(db, id, text, lower, search, now, timeout);
    var normalized := Normalized(text, lower);
    var state := CurrentState(db, id);
    match FindBound(db, Bindings(id)) {
      case None =>
        EventWithoutDraft(normalized);
        RefusedWithoutDraft(db, id, req);
      case Some(i) =>
        NeverMatching(db, i);
        if EventFor(state, normalized) !in {StartReport, PatchReport} {
          DecidingHasText(state, text, lower);
        }
        BoundRefused(db, id, req, i);
        RefusedOnDraft(
          db.drafts[i].flow, ActedOn(db.drafts[i], now), PastDue(db.drafts[i], now), normalized);
    }
  }
}
