/**
 * The pending-reply table: `wait_for_response` asks a chat a question and
 * suspends until `handle_response` settles the chat's future with the next
 * text message, or until its timer fires.
 *
 * Each future the coordinator creates is named by its allocation number, so
 * that a future dropped from the table (overwritten by a second question to
 * the same chat) still exists for the caller that awaits it. The suspension is
 * modelled by splitting `wait_for_response` at its `await`: `BeginWait` runs
 * up to it and `EndWait` from it on. Resuming while the future is still
 * pending is the timer winning the race.
 */
module Conversations {

  type ChatId = int
  type FutureId = nat

  datatype Message = Message(id: nat, chat: ChatId, text: string)

  /** An asyncio future: not done, done with a reply, or cancelled by the timeout. */
  datatype Future = Pending | Done(reply: Message) | Cancelled

  /** What `wait_for_response` returns: the reply, or None after a timeout. */
  datatype Exit = Settled(msg: Message) | TimedOut

  /** The messages the coordinator sends or edits. */
  datatype Outgoing = Prompt(chat: ChatId, text: string) | TimeoutNotice(chat: ChatId)

  class Coordinator {
    /** ACTIVE_CONVERSATIONS: chat id to the future registered for it. */
    var active: map<ChatId, FutureId>
    /** Every future created so far, by allocation number. */
    var futures: map<FutureId, Future>
    var nextFuture: FutureId
    /** The prompts sent and the timeout edits made, in order. */
    var outbox: seq<Outgoing>

    ghost predicate Valid()
      reads this
    {
      && (forall c | c in active :: active[c] in futures)
      && (forall f | f in futures :: f < nextFuture)
    }

    constructor ()
      ensures Valid()
      ensures active == map[] && futures == map[] && outbox == []
    {
      active, futures, nextFuture, outbox := map[], map[], 0, [];
    }

    /** A text message from `chat` would be routed: its registered future is not done. */
    predicate Awaiting(chat: ChatId): (b: bool)
      reads this
      ensures b ==> chat in active
      ensures Valid() ==> (b <==> chat in active && futures[active[chat]] == Pending)
    {
      chat in active && active[chat] in futures && futures[active[chat]] == Pending
    }

    /**
     * `wait_for_response` up to its `await`: the prompt is sent first, then a
     * fresh future is registered for the chat, replacing whatever it had.
     */
    method BeginWait(chat: ChatId, question: string) returns (f: FutureId)
      requires Valid()
      modifies this
      ensures Valid()
      ensures f !in old(futures)
      ensures active == old(active)[chat := f]
      ensures futures == old(futures)[f := Pending]
      ensures outbox == old(outbox) + [Prompt(chat, question)]
    {
      outbox := outbox + [Prompt(chat, question)];
      f := nextFuture;
      nextFuture := nextFuture + 1;
      futures := futures[f := Pending];
      active := active[chat := f];
    }

    /**
     * `handle_response`: a message is routed, and settles the chat's future,
     * exactly when the chat is awaiting a reply; otherwise nothing changes.
     */
    method HandleResponse(message: Message) returns (handled: bool)
      requires Valid()
      modifies this`futures
      ensures Valid()
      ensures handled == old(Awaiting(message.chat))
      ensures handled ==> futures == old(futures)[active[message.chat] := Done(message)]
      ensures !handled ==> futures == old(futures)
      ensures !Awaiting(message.chat)
    {
      handled := false;
      var chat := message.chat;
      if chat in active {
        var f := active[chat];
        if futures[f] == Pending {
          futures := futures[f := Done(message)];
          handled := true;
        }
      }
    }

    /**
     * `wait_for_response` from its `await` on, for the future `f` this caller
     * registered. A settled future yields its reply; a pending one means the
     * timer fired first: the future is cancelled and the prompt edited. On both
     * exits the chat's entry is deleted, whichever future it holds by then.
     */
    method EndWait(chat: ChatId, f: FutureId) returns (exit: Exit)
      requires Valid() && f in futures
      modifies this`active, this`futures, this`outbox
      ensures Valid()
      ensures chat !in active
      ensures active == old(active) - {chat}
      ensures old(futures[f]).Done? ==>
                exit == Settled(old(futures[f]).reply) && futures == old(futures) && outbox == old(outbox)
      ensures !old(futures[f]).Done? ==>
                exit == TimedOut && futures == old(futures)[f := Cancelled]
                && outbox == old(outbox) + [TimeoutNotice(chat)]
    {
      if futures[f].Done? {
        exit := Settled(futures[f].reply);
      } else {
        futures := futures[f := Cancelled];
        outbox := outbox + [TimeoutNotice(chat)];
        exit := TimedOut;
      }
      if chat in active {
        active := active - {chat};
      }
    }
  }

  /** A question answered before the timer fires returns the answer and leaves no entry. */
  method AskAnswered(co: Coordinator, question: string, reply: Message) returns (exit: Exit)
    requires co.Valid()
    modifies co
    ensures co.Valid()
    ensures exit == Settled(reply)
    ensures reply.chat !in co.active
    ensures co.outbox == old(co.outbox) + [Prompt(reply.chat, question)]
  {
    var f := co.BeginWait(reply.chat, question);
    var handled := co.HandleResponse(reply);
    assert handled;
    exit := co.EndWait(reply.chat, f);
  }

  /** A question nobody answers times out, edits its prompt and leaves no entry. */
  method AskUnanswered(co: Coordinator, chat: ChatId, question: string) returns (exit: Exit)
    requires co.Valid()
    modifies co
    ensures co.Valid()
    ensures exit == TimedOut
    ensures chat !in co.active
    ensures co.outbox == old(co.outbox) + [Prompt(chat, question), TimeoutNotice(chat)]
  {
    var f := co.BeginWait(chat, question);
    exit := co.EndWait(chat, f);
  }

  /** The same message delivered twice: the second delivery is never routed and changes nothing. */
  method DeliverTwice(co: Coordinator, message: Message) returns (first: bool, second: bool)
    requires co.Valid()
    modifies co
    ensures co.Valid()
    ensures !second
    ensures first == old(co.Awaiting(message.chat))
    ensures co.active == old(co.active)
    ensures first ==> co.futures == old(co.futures)[co.active[message.chat] := Done(message)]
    ensures !first ==> co.futures == old(co.futures)
  {
    first := co.HandleResponse(message);
    second := co.HandleResponse(message);
  }

  /**
   * Two questions to one chat: the second registration replaces the first, so
   * the reply settles only the second caller's future and the first caller
   * times out although its chat answered.
   */
  method OverlappingAsksFirstOrphaned(co: Coordinator, q1: string, q2: string, reply: Message)
    returns (handled: bool, exit1: Exit, exit2: Exit)
    requires co.Valid()
    modifies co
    ensures handled && exit1 == TimedOut && exit2 == Settled(reply)
    ensures reply.chat !in co.active
  {
    var f1 := co.BeginWait(reply.chat, q1);
    var f2 := co.BeginWait(reply.chat, q2);
    handled := co.HandleResponse(reply);
    exit1 := co.EndWait(reply.chat, f1);
    exit2 := co.EndWait(reply.chat, f2);
  }

  /**
   * Two questions to one chat, the first timing out before any reply: its
   * cleanup deletes the second caller's entry, so the reply is not routed and
   * the second caller times out as well.
   */
  method OverlappingAsksSecondDropped(co: Coordinator, q1: string, q2: string, reply: Message)
    returns (exit1: Exit, handled: bool, exit2: Exit)
    requires co.Valid()
    modifies co
    ensures exit1 == TimedOut && !handled && exit2 == TimedOut
    ensures reply.chat !in co.active
  {
    var f1 := co.BeginWait(reply.chat, q1);
    var f2 := co.BeginWait(reply.chat, q2);
    exit1 := co.EndWait(reply.chat, f1);
    handled := co.HandleResponse(reply);
    exit2 := co.EndWait(reply.chat, f2);
  }
}
