/**
 * The bracket of `MessageProcessor.process` (app/services/message_processor.py:114-612): acquire, the try block with
 * its send and mark_done, and the finally that releases the dedup key. How the reply is computed is left open; what
 * each await does, and whether there is anything to reply, is said by a script.
 */
module MessageProcessor {
  import Dedup
  import opened Wrappers
  import opened Delivery
  import opened QueueState

  datatype Await = Passes | Raises | Cancels

  /** A store command: run, its failure swallowed by the store, or cancelled before or after it took effect. */
  datatype Command = Runs(f: Fault) | Interrupted(applied: bool)

  /** Empty content and human handoff end the call without a reply. */
  datatype Content = Replies | NothingToSend | ContentRaises | ContentCancels

  datatype SendAnswer = Accepted | Declined | SendRaises | SendCancels

  /** `timer` can only be cancelled: `cancel_pending_timer` swallows everything else. */
  datatype Script = Script(
    acquire: Command, timerCancelled: bool, read: Await, content: Content, save: Option<nat>, saving: Await, work: Await,
    send: SendAnswer, mark: Command, finish: Await, release: Command)

  function Effect(c: Command): Fault {
    match c
    case Runs(f) => f
    case Interrupted(applied) => if applied then Applied else Dropped
  }

  predicate Landed(c: Command) {
    Effect(c) != Dropped
  }

  /** The store answers, with what its keys say. */
  predicate Answered(c: Command) {
    c == Runs(NoFault)
  }

  function Ending(a: Await): Outcome {
    match a
    case Passes => Returned
    case Raises => Raised
    case Cancels => Cancelled
  }

  /** How far the try block gets: it ends early, reaches mark_done with nothing sent, or reaches its send. */
  datatype Progress = Ends(out: Outcome) | MarksUnsent | Sends

  function ProgressOf(s: Script): Progress {
    if s.read != Passes then Ends(Ending(s.read))
    else match s.content
      case ContentRaises => Ends(Raised)
      case ContentCancels => Ends(Cancelled)
      case NothingToSend => MarksUnsent
      case Replies =>
        if s.save.Some? && s.saving != Passes then Ends(Ending(s.saving))
        else if s.work != Passes then Ends(Ending(s.work))
        else match s.send
          case Accepted => Sends
          case Declined => Ends(Returned)
          case SendRaises => Ends(Raised)
          case SendCancels => Ends(Cancelled)
  }

  /** The try block comes to its mark_done: the reply was sent, or there was none to send. */
  predicate Answers(s: Script) {
    !ProgressOf(s).Ends?
  }

  /** How the try block ends, and whether it got past mark_done. */
  function TryEnding(s: Script): (Outcome, bool) {
    match ProgressOf(s)
    case Ends(out) => (out, false)
    case MarksUnsent => if s.mark.Interrupted? then (Cancelled, false) else (Returned, true)
    case Sends => if s.mark.Interrupted? then (Cancelled, false) else (Ending(s.finish), true)
  }

  function Stored(keys: Dedup.Keys, kind: Dedup.Kind, msgid: string, now: real): Dedup.Keys {
    Dedup.KeysStep(keys, Dedup.Call(now, kind, msgid)).0
  }

  predicate Taken(keys: Dedup.Keys, msgid: string, now: real) {
    Dedup.Exists(keys.done, msgid, now) || Dedup.Exists(keys.proc, msgid, now)
  }

  function Marks(keys: Dedup.Keys, msgid: string, s: Script, now: real): Dedup.Keys {
    if Answers(s) && Landed(s.mark) then Stored(keys, Dedup.MarkDone, msgid, now) else keys
  }

  /** The dedup keys, the outcome and the number of replies sent by one call. */
  datatype Bracket = Bracket(keys: Dedup.Keys, out: Outcome, sends: nat)

  /** The finally block: without mark_done the key is released, and a cancelled release replaces the outcome. */
  function Finally(keys: Dedup.Keys, msgid: string, s: Script, now: real): (Dedup.Keys, Outcome) {
    var (out, done) := TryEnding(s);
    if done then (keys, out)
    else (if Landed(s.release) then Stored(keys, Dedup.Release, msgid, now) else keys,
          if s.release.Interrupted? then Cancelled else out)
  }

  function Processed(keys: Dedup.Keys, msgid: string, s: Script, now: real): Bracket {
    var held := if Landed(s.acquire) then Stored(keys, Dedup.Acquire, msgid, now) else keys;
    if s.acquire.Interrupted? then Bracket(held, Cancelled, 0)
    else if Answered(s.acquire) && msgid != "" && Taken(keys, msgid, now) then Bracket(keys, Returned, 0)
    else if s.timerCancelled then Bracket(held, Cancelled, 0)
    else
      var (after, out) := Finally(Marks(held, msgid, s, now), msgid, s, now);
      Bracket(after, out, if ProgressOf(s).Sends? then 1 else 0)
  }

  class Processor {
    const dedup: Dedup.RedisDedupStore
    var conv: map<LockKey, seq<nat>>
    var sends: nat

    constructor (dedup: Dedup.RedisDedupStore)
      ensures this.dedup == dedup && conv == map[] && sends == 0
    {
      this.dedup := dedup;
      conv, sends := map[], 0;
    }

    /** The try block: read, modify and write the conversation state, send, mark done. */
    method Body(m: Inbound, s: Script, now: real) returns (out: Outcome, done: bool)
      modifies this, dedup
      ensures (out, done) == TryEnding(s)
      ensures dedup.State() == Marks(old(dedup.State()), DedupKey(m), s, now)
      ensures sends == old(sends) + (if ProgressOf(s).Sends? then 1 else 0)
      ensures conv == if s.read == Passes && s.content == Replies && s.save.Some? && s.saving == Passes
        then old(conv)[KeyOf(m) := Lookup(old(conv), KeyOf(m), []) + [s.save.value]] else old(conv)
      ensures forall o: Inbound | !SameKey(o, m) ::
        Lookup(conv, KeyOf(o), []) == Lookup(old(conv), KeyOf(o), [])
    {
      forall o: Inbound | !SameKey(o, m)
        ensures KeyOf(o) != KeyOf(m)
      {
        SharedKey(o, m);
      }
      if s.read != Passes {
        return Ending(s.read), false;
      }
      var state := if KeyOf(m) in conv then conv[KeyOf(m)] else [];
      match s.content {
        case ContentRaises => return Raised, false;
        case ContentCancels => return Cancelled, false;
        case NothingToSend =>
          dedup.MarkDone(DedupKey(m), now, Effect(s.mark));
          if s.mark.Interrupted? {
            return Cancelled, false;
          }
          return Returned, true;
        case Replies =>
      }
      if s.save.Some? {
        if s.saving != Passes {
          return Ending(s.saving), false;
        }
        state := state + [s.save.value];
        conv := conv[KeyOf(m) := state];
      }
      if s.work != Passes {
        return Ending(s.work), false;
      }
      match s.send {
        case Declined => return Returned, false;
        case SendRaises => return Raised, false;
        case SendCancels => return Cancelled, false;
        case Accepted => sends := sends + 1;
      }
      dedup.MarkDone(DedupKey(m), now, Effect(s.mark));
      if s.mark.Interrupted? {
        return Cancelled, false;
      }
      return Ending(s.finish), true;
    }

    method Process(m: Inbound, s: Script, now: real) returns (out: Outcome)
      modifies this, dedup
      ensures var b := Processed(old(dedup.State()), DedupKey(m), s, now);
        dedup.State() == b.keys && out == b.out && sends == old(sends) + b.sends
    {
      var acquired := dedup.Acquire(DedupKey(m), now, Effect(s.acquire));
      if s.acquire.Interrupted? {
        return Cancelled;
      }
      if !acquired {
        return Returned;
      }
      if s.timerCancelled {
        return Cancelled;
      }
      var done;
      out, done := Body(m, s, now);
      if !done {
        var confirmed := dedup.ReleaseProcessing(DedupKey(m), now, Effect(s.release));
        if s.release.Interrupted? {
          out := Cancelled;
        }
      }
    }
  }

  /** The call's run got as far as its try block. */
  predicate Entered(s: Script) {
    !s.acquire.Interrupted? && !s.timerCancelled
  }

  /**
   * A message nobody holds can be taken again after a call of it exactly when the call left no key behind: its
   * acquire had no effect and it marked nothing done, or its try block was entered and it released what it held
   * without having got past, or having applied, a mark_done.
   */
  lemma TakenAgain(keys: Dedup.Keys, msgid: string, s: Script, now: real)
    requires msgid != "" && !Taken(keys, msgid, now)
    ensures !Taken(Processed(keys, msgid, s, now).keys, msgid, now) <==>
      if !Entered(s) then !Landed(s.acquire)
      else if Answers(s) && !s.mark.Interrupted? then s.mark == Runs(Dropped) && !Landed(s.acquire)
      else !(Answers(s) && Landed(s.mark)) && (Landed(s.release) || !Landed(s.acquire))
  {
    var held := if Landed(s.acquire) then Stored(keys, Dedup.Acquire, msgid, now) else keys;
    assert Taken(held, msgid, now) <==> Landed(s.acquire);
    assert !Dedup.Exists(held.done, msgid, now);
    var marked := Marks(held, msgid, s, now);
    assert Dedup.Exists(marked.done, msgid, now) <==> Answers(s) && Landed(s.mark);
  }

  /** The call is told that the message is taken. */
  predicate Skips(keys: Dedup.Keys, msgid: string, s: Script, now: real) {
    Answered(s.acquire) && msgid != "" && Taken(keys, msgid, now)
  }

  /** The awaits before the send all pass, and there is something to send. */
  predicate ComesToSend(s: Script) {
    s.read == Passes && s.content == Replies && (s.save.Some? ==> s.saving == Passes) && s.work == Passes
  }

  /**
   * A call returns normally exactly when it skips a taken message; or was not cancelled before its try block and then
   * its send was declined and its key released without interruption, or its reply was sent and marked and the rest
   * passed, or it had none to send and marked that.
   */
  lemma ReturnsMean(keys: Dedup.Keys, msgid: string, s: Script, now: real)
    ensures Processed(keys, msgid, s, now).out == Returned <==>
      || Skips(keys, msgid, s, now)
      || (Entered(s) && ComesToSend(s) && s.send == Declined && !s.release.Interrupted?)
      || (Entered(s) && ComesToSend(s) && s.send == Accepted && !s.mark.Interrupted? && s.finish == Passes)
      || (Entered(s) && s.read == Passes && s.content == NothingToSend && !s.mark.Interrupted?)
  {
  }

  /** It sends, once, exactly when it comes to its send and the send is accepted, whatever happens afterwards. */
  lemma SendsMean(keys: Dedup.Keys, msgid: string, s: Script, now: real)
    ensures Processed(keys, msgid, s, now).sends ==
      if !Skips(keys, msgid, s, now) && Entered(s) && ComesToSend(s) && s.send == Accepted then 1 else 0
  {
  }

  /** It ends cancelled exactly when an await that it came to was cancelled; every other failure is raised. */
  lemma CancelledMeans(keys: Dedup.Keys, msgid: string, s: Script, now: real)
    requires Entered(s) && !Skips(keys, msgid, s, now)
    ensures Processed(keys, msgid, s, now).out == Cancelled <==>
      var early := || s.read == Cancels
                   || (s.read == Passes && s.content == ContentCancels)
                   || (s.read == Passes && s.content == Replies && s.save.Some? && s.saving == Cancels)
                   || (s.read == Passes && s.content == Replies && (s.save.Some? ==> s.saving == Passes) && s.work == Cancels)
                   || (ComesToSend(s) && s.send == SendCancels);
      || early
      || (Answers(s) && s.mark.Interrupted?)
      || (ComesToSend(s) && s.send == Accepted && !s.mark.Interrupted? && s.finish == Cancels)
      || (!(Answers(s) && !s.mark.Interrupted?) && s.release.Interrupted?)
  {
  }

  /** Once a message was marked done, answered or not, no call that asks the store sends a reply within the window. */
  lemma SendsOnce(keys: Dedup.Keys, msgid: string, first: Script, at: real, second: Script, now: real)
    requires msgid != "" && Entered(first) && !(Answered(first.acquire) && Taken(keys, msgid, at))
    requires Answers(first) && Landed(first.mark)
    requires (second.acquire.Interrupted? || Answered(second.acquire)) && at <= now < at + Dedup.TTL
    ensures Processed(Processed(keys, msgid, first, at).keys, msgid, second, now).sends == 0
  {
    var held := if Landed(first.acquire) then Stored(keys, Dedup.Acquire, msgid, at) else keys;
    assert Dedup.Exists(Marks(held, msgid, first, at).done, msgid, now);
    assert Dedup.Exists(Processed(keys, msgid, first, at).keys.done, msgid, now);
  }
}
