/**
 * Private chat of ChatHub: a sent message is stored with the caller as its
 * sender, and the history of a conversation is its most recent messages,
 * oldest first.
 *
 * The caller's identity (Context.UserIdentifier and its role claim) and
 * the clock are parameters; the push to the receiver's connections is
 * returned as a value.
 */
module Chat {
  import opened Common
  import opened Paging
  import Sorting

  datatype PrivateMessage = PrivateMessage(
    senderUserId: string,
    receiverUserId: string,
    senderRole: Option<string>,
    messageText: string,
    sentAt: int)

  /** Clients.User(receiver).SendAsync("ReceivePrivateMessage", sender, text). */
  datatype Push = Push(toUserId: string, senderUserId: string, messageText: string)

  /** The message passed between the two users, in either direction. */
  predicate Between(m: PrivateMessage, current: string, other: string) {
    || (m.senderUserId == current && m.receiverUserId == other)
    || (m.senderUserId == other && m.receiverUserId == current)
  }

  /** The repository query of GetMessageHistory: the conversation's
      messages in table order. */
  function Conversation(messages: seq<PrivateMessage>, current: string, other: string): seq<PrivateMessage> {
    if messages == [] then []
    else (if Between(messages[0], current, other) then [messages[0]] else []) + Conversation(messages[1..], current, other)
  }

  lemma {:induction false} ConversationMembers(messages: seq<PrivateMessage>, current: string, other: string)
    ensures forall x :: x in Conversation(messages, current, other) <==> x in messages && Between(x, current, other)
  {
    if messages != [] {
      ConversationMembers(messages[1..], current, other);
      assert messages == [messages[0]] + messages[1..];
    }
  }

  /** A stored message joins exactly the conversations it belongs to, at
      their end. */
  lemma {:induction false} ConversationAppend(messages: seq<PrivateMessage>, m: PrivateMessage, current: string, other: string)
    ensures Conversation(messages + [m], current, other)
            == Conversation(messages, current, other) + (if Between(m, current, other) then [m] else [])
  {
    if messages == [] {
      assert messages + [m] == [m] && [m][1..] == [];
    } else {
      var head := if Between(messages[0], current, other) then [messages[0]] else [];
      assert (messages + [m])[0] == messages[0] && (messages + [m])[1..] == messages[1..] + [m];
      ConversationAppend(messages[1..], m, current, other);
      assert Conversation(messages + [m], current, other) == head + Conversation(messages[1..] + [m], current, other);
    }
  }

  /** OrderBy(m => m.SentAt). */
  function OldestFirst(): (PrivateMessage, PrivateMessage) -> bool {
    (a: PrivateMessage, b: PrivateMessage) => a.sentAt <= b.sentAt
  }

  /** OrderByDescending(m => m.SentAt). */
  function NewestFirst(): (PrivateMessage, PrivateMessage) -> bool {
    (a: PrivateMessage, b: PrivateMessage) => a.sentAt >= b.sentAt
  }

  lemma OrdersPreorder()
    ensures Sorting.TotalPreorder(OldestFirst())
    ensures Sorting.TotalPreorder(NewestFirst())
  {
  }

  /** The conversation newest first, as the history query ranks it. */
  function Ranked(messages: seq<PrivateMessage>, current: string, other: string): seq<PrivateMessage> {
    Sorting.SortBy(Conversation(messages, current, other), NewestFirst())
  }

  /** GetMessageHistory: the `take` newest messages of the conversation,
      put back in ascending SentAt order. */
  function GetMessageHistory(messages: seq<PrivateMessage>, current: string, other: string, take: Int32)
    : (r: seq<PrivateMessage>)
    ensures Sorting.SortedBy(r, OldestFirst())
    ensures |r| <= (if take <= 0 then 0 else take)
  {
    var newest := Take(Ranked(messages, current, other), take);
    OrdersPreorder();
    Sorting.SortBySorted(newest, OldestFirst());
    Sorting.SortBy(newest, OldestFirst())
  }

  /** How many messages the history holds: `take` of them, or the whole
      conversation when it is shorter, and none for a take below 1. */
  function HistoryLength(conversationLength: nat, take: int): nat {
    if take <= 0 then 0 else if take < conversationLength then take else conversationLength
  }

  /** The history holds only messages of this conversation, in either
      direction, oldest first, and exactly as many as HistoryLength says. */
  lemma HistoryContents(messages: seq<PrivateMessage>, current: string, other: string, take: Int32)
    ensures var h := GetMessageHistory(messages, current, other, take);
            && (forall x :: x in h ==> x in messages && Between(x, current, other))
            && Sorting.SortedBy(h, OldestFirst())
            && |h| == HistoryLength(|Conversation(messages, current, other)|, take)
  {
    var conv := Conversation(messages, current, other);
    var ranked := Ranked(messages, current, other);
    var recent := Take(ranked, take);
    var h := GetMessageHistory(messages, current, other, take);
    OrdersPreorder();
    Sorting.SortBySorted(recent, OldestFirst());
    Sorting.SortBySorted(conv, NewestFirst());
    ConversationMembers(messages, current, other);
    var n := HistoryLength(|conv|, take);
    assert recent == ranked[..n];
    forall x | x in h ensures x in messages && Between(x, current, other) {
      assert multiset(h)[x] > 0;
      assert x in ranked[..n];
      assert multiset(ranked)[x] > 0;
    }
  }

  /** The history holds the most recent messages of the conversation:
      it is drawn from the conversation, and every message left out was
      sent no later than every message kept. */
  lemma HistoryMostRecent(messages: seq<PrivateMessage>, current: string, other: string, take: Int32)
    ensures var h := GetMessageHistory(messages, current, other, take);
            var conv := Conversation(messages, current, other);
            && multiset(h) <= multiset(conv)
            && forall x: PrivateMessage, y: PrivateMessage :: x in h && y in multiset(conv) - multiset(h) ==> y.sentAt <= x.sentAt
  {
    var conv := Conversation(messages, current, other);
    var ranked := Ranked(messages, current, other);
    var h := GetMessageHistory(messages, current, other, take);
    OrdersPreorder();
    Sorting.SortBySorted(conv, NewestFirst());
    var n := HistoryLength(|conv|, take);
    assert Take(ranked, take) == ranked[..n];
    assert multiset(h) == multiset(ranked[..n]);
    assert multiset(conv) == multiset(ranked);
    PrefixMostRecent(ranked, n);
    assert multiset(ranked) == multiset(ranked[..n]) + multiset(ranked[n..]);
  }

  /** In a newest-first listing, a prefix is never older than what it
      leaves out. */
  lemma PrefixMostRecent(ranked: seq<PrivateMessage>, n: nat)
    requires n <= |ranked| && Sorting.SortedBy(ranked, NewestFirst())
    ensures multiset(ranked) == multiset(ranked[..n]) + multiset(ranked[n..])
    ensures forall x: PrivateMessage, y: PrivateMessage :: x in multiset(ranked[..n]) && y in multiset(ranked[n..]) ==> y.sentAt <= x.sentAt
  {
    assert ranked == ranked[..n] + ranked[n..];
    forall x: PrivateMessage, y: PrivateMessage | x in multiset(ranked[..n]) && y in multiset(ranked[n..])
      ensures y.sentAt <= x.sentAt
    {
      var i :| 0 <= i < n && ranked[..n][i] == x;
      var j :| 0 <= j < |ranked| - n && ranked[n..][j] == y;
      assert NewestFirst()(ranked[i], ranked[n + j]);
    }
  }

  class ChatHub {
    var messages: seq<PrivateMessage>

    constructor ()
      ensures messages == []
    {
      messages := [];
    }

    /** SendPrivateMessage: the record names the caller as sender, with
        the caller's role claim, the given receiver and text, and the
        current time. `saved` is whether the repository accepted it: a
        failed save is logged and swallowed, and the receiver is pushed
        the message either way. */
    method SendPrivateMessage(caller: string, callerRole: Option<string>, receiverUserId: string, message: string,
                              now: int, saved: bool)
      returns (push: Push)
      modifies this
      ensures push == Push(receiverUserId, caller, message)
      ensures saved ==> messages == old(messages) + [PrivateMessage(caller, receiverUserId, callerRole, message, now)]
      ensures !saved ==> messages == old(messages)
    {
      var record := PrivateMessage(caller, receiverUserId, callerRole, message, now);
      if saved {
        messages := messages + [record];
      }
      push := Push(receiverUserId, caller, message);
    }
  }

  /** A sent message joins the conversation between its sender and its
      receiver, seen from either side, and no other conversation. */
  lemma SentJoinsConversation(messages: seq<PrivateMessage>, m: PrivateMessage, current: string, other: string)
    ensures Conversation(messages + [m], m.senderUserId, m.receiverUserId)
            == Conversation(messages, m.senderUserId, m.receiverUserId) + [m]
    ensures Conversation(messages + [m], m.receiverUserId, m.senderUserId)
            == Conversation(messages, m.receiverUserId, m.senderUserId) + [m]
    ensures !Between(m, current, other) ==>
              Conversation(messages + [m], current, other) == Conversation(messages, current, other)
  {
    ConversationAppend(messages, m, m.senderUserId, m.receiverUserId);
    ConversationAppend(messages, m, m.receiverUserId, m.senderUserId);
    ConversationAppend(messages, m, current, other);
  }
}
