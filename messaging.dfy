/** What the two chat screens (app/screens/ConversationScreen.tsx and
    app/screens/SupportScreen.tsx) share: the message record and the test
    that puts a bubble on the sender's side. */
module Messaging {
  import opened Js

  /** One entry of a conversation's `messages`. */
  datatype Message = Message(id: int, body: string, senderId: int, createdAt: string)

  /** `item.sender_id === currentUserId`: a message is drawn as sent exactly
      when the signed-in user is known and wrote it. */
  predicate IsSent(m: Message, currentUserId: Option<int>) {
    currentUserId == Some(m.senderId)
  }

  /** The messages drawn on the sender's side. */
  function SentIds(messages: seq<Message>, currentUserId: Option<int>): (r: set<int>)
    ensures forall i | 0 <= i < |messages| :: IsSent(messages[i], currentUserId) ==> messages[i].id in r
    ensures forall id | id in r :: exists i | 0 <= i < |messages| :: messages[i].id == id && IsSent(messages[i], currentUserId)
  {
    set i | 0 <= i < |messages| && IsSent(messages[i], currentUserId) :: messages[i].id
  }

  /** Before the signed-in user is known no message is drawn as sent, and
      once known every message falls on exactly one side, decided by its
      sender alone. */
  lemma SidesByUser(messages: seq<Message>, currentUserId: Option<int>)
    ensures currentUserId.None? ==> SentIds(messages, currentUserId) == {}
    ensures forall i, j | 0 <= i < |messages| && 0 <= j < |messages| && messages[i].senderId == messages[j].senderId ::
              IsSent(messages[i], currentUserId) == IsSent(messages[j], currentUserId)
  {
  }
}
