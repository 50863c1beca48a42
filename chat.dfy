/**
 * The chat document: `addMessage` and `markAsRead` over the message list and the two
 * unread counters.
 */
module ChatModel {
  import opened Common

  datatype SenderType = Customer | StoreOwner | Admin

  /** The string the schema stores for a sender type. */
  function SenderTypeName(t: SenderType): string
  {
    match t
    case Customer => "customer"
    case StoreOwner => "store_owner"
    case Admin => "admin"
  }

  /** A participant; `user` is absent for a guest customer. */
  datatype Participant = Participant(kind: SenderType, user: Option<UserId>, name: Option<string>)

  datatype Attachment = Attachment(kind: string, url: string)

  datatype Message = Message(
    senderType: SenderType,
    senderUser: Option<UserId>,
    senderName: Option<string>,
    text: string,
    attachments: seq<Attachment>,
    sentAt: int,
    isRead: bool,
    readAt: Option<int>)

  datatype LastMessage = LastMessage(text: string, sentAt: int, senderType: SenderType)

  /**
   * The index `participants.find(p => p.user?.toString() === senderId?.toString())`
   * lands on: the first participant whose user equals the sender id, where an absent
   * user matches an absent id.
   */
  function FirstMatch(participants: seq<Participant>, senderId: Option<UserId>): (r: Option<nat>)
    ensures r.Some? ==> r.value < |participants| && participants[r.value].user == senderId
    ensures r.Some? ==> forall j :: 0 <= j < r.value ==> participants[j].user != senderId
    ensures r.None? ==> forall j :: 0 <= j < |participants| ==> participants[j].user != senderId
  {
    if participants == [] then None
    else if participants[0].user == senderId then Some(0)
    else
      match FirstMatch(participants[1..], senderId)
      case None => None
      case Some(i) => Some(i + 1)
  }

  /** The sender name `addMessage` records: the first matching participant's name, if any. */
  function SenderName(participants: seq<Participant>, senderId: Option<UserId>): Option<string>
  {
    match FirstMatch(participants, senderId)
    case None => None
    case Some(i) => participants[i].name
  }

  /** What `markAsRead` does to one message. */
  function ReadOne(m: Message, readerType: string, now: int): Message
  {
    if !m.isRead && SenderTypeName(m.senderType) != readerType then m.(isRead := true, readAt := Some(now)) else m
  }

  /** The message list after `markAsRead(readerType)` at time `now`. */
  function MarkedRead(messages: seq<Message>, readerType: string, now: int): seq<Message>
  {
    seq(|messages|, i requires 0 <= i < |messages| => ReadOne(messages[i], readerType, now))
  }

  class Chat {
    var participants: seq<Participant>
    var messages: seq<Message>
    var lastMessage: Option<LastMessage>
    var unreadCustomer: int
    var unreadStore: int

    /** A new chat: no messages and both counters at their default 0. */
    constructor(participants: seq<Participant>)
      ensures this.participants == participants && messages == [] && lastMessage == None
      ensures unreadCustomer == 0 && unreadStore == 0
    {
      this.participants := participants;
      messages := [];
      lastMessage := None;
      unreadCustomer := 0;
      unreadStore := 0;
    }

    /**
     * `addMessage(senderType, senderId, message, attachments)` at time `now`: appends one
     * unread message, records it as the last message, and bumps the counter of the
     * other side (the store's for a customer, the customer's for anyone else).
     */
    method AddMessage(senderType: SenderType, senderId: Option<UserId>, text: string,
                      attachments: seq<Attachment>, now: int)
      returns (m: Message)
      modifies this
      ensures m == Message(senderType, senderId, SenderName(participants, senderId), text, attachments, now, false, None)
      ensures messages == old(messages) + [m]
      ensures lastMessage == Some(LastMessage(text, now, senderType))
      ensures senderType == Customer ==> unreadStore == old(unreadStore) + 1 && unreadCustomer == old(unreadCustomer)
      ensures senderType != Customer ==> unreadCustomer == old(unreadCustomer) + 1 && unreadStore == old(unreadStore)
      ensures participants == old(participants)
    {
      m := Message(senderType, senderId, SenderName(participants, senderId), text, attachments, now, false, None);
      messages := messages + [m];
      lastMessage := Some(LastMessage(text, now, senderType));
      if senderType == Customer {
        unreadStore := unreadStore + 1;
      } else {
        unreadCustomer := unreadCustomer + 1;
      }
    }

    /**
     * `markAsRead(readerType)` at time `now`: zeroes the store counter when the reader
     * is `"store"` and the customer counter otherwise, then marks read every unread
     * message whose sender type differs from the reader type.
     */
    method MarkAsRead(readerType: string, now: int)
      modifies this
      ensures readerType == "store" ==> unreadStore == 0 && unreadCustomer == old(unreadCustomer)
      ensures readerType != "store" ==> unreadCustomer == 0 && unreadStore == old(unreadStore)
      ensures messages == MarkedRead(old(messages), readerType, now)
      ensures participants == old(participants) && lastMessage == old(lastMessage)
    {
      if readerType == "store" {
        unreadStore := 0;
      } else {
        unreadCustomer := 0;
      }
      var i := 0;
      while i < |messages|
        invariant 0 <= i <= |messages| == |old(messages)|
        invariant forall j :: 0 <= j < i ==> messages[j] == ReadOne(old(messages)[j], readerType, now)
        invariant forall j :: i <= j < |messages| ==> messages[j] == old(messages)[j]
        invariant readerType == "store" ==> unreadStore == 0 && unreadCustomer == old(unreadCustomer)
        invariant readerType != "store" ==> unreadCustomer == 0 && unreadStore == old(unreadStore)
        invariant participants == old(participants) && lastMessage == old(lastMessage)
      {
        var msg := messages[i];
        if !msg.isRead && SenderTypeName(msg.senderType) != readerType {
          messages := messages[i := msg.(isRead := true, readAt := Some(now))];
        }
        i := i + 1;
      }
    }
  }

  // ---------------------------------------------------------------- properties

  /**
   * Marking as read keeps the messages and their order, never un-reads one, leaves
   * already-read messages (and their `readAt`) alone, and flips exactly the unread
   * messages of the other side.
   */
  lemma MarkedReadEffect(messages: seq<Message>, readerType: string, now: int)
    ensures |MarkedRead(messages, readerType, now)| == |messages|
    ensures forall i :: 0 <= i < |messages| ==>
      var r := MarkedRead(messages, readerType, now)[i];
      r.text == messages[i].text && r.senderType == messages[i].senderType
      && (messages[i].isRead ==> r == messages[i])
      && (r.isRead <==> messages[i].isRead || SenderTypeName(messages[i].senderType) != readerType)
  {
  }

  /** A second `markAsRead` by the same reader changes no message. */
  lemma MarkedReadIdempotent(messages: seq<Message>, readerType: string, t1: int, t2: int)
    ensures MarkedRead(MarkedRead(messages, readerType, t1), readerType, t2) == MarkedRead(messages, readerType, t1)
  {
  }

  /**
   * No sender type is spelled `"store"`, so `markAsRead("store")` marks every unread
   * message read, the store owner's own included; only `markAsRead("store_owner")`
   * skips them, and that call zeroes the customer counter instead.
   */
  lemma StoreReaderMarksEverything(messages: seq<Message>, now: int)
    ensures forall i :: 0 <= i < |messages| ==> MarkedRead(messages, "store", now)[i].isRead
    ensures forall i :: 0 <= i < |messages| && !messages[i].isRead && messages[i].senderType == StoreOwner ==>
      !MarkedRead(messages, "store_owner", now)[i].isRead
  {
    forall i | 0 <= i < |messages| ensures MarkedRead(messages, "store", now)[i].isRead {
      var t := SenderTypeName(messages[i].senderType);
      assert t != "store" by {
        assert |t| != 5 || t[0] != 's';
      }
    }
  }

  /** The recorded sender name is the first match's name, so a later namesake id never wins. */
  lemma {:induction false} SenderNameOfFirst(participants: seq<Participant>, senderId: Option<UserId>, i: nat)
    requires i < |participants| && participants[i].user == senderId
    requires forall j :: 0 <= j < i ==> participants[j].user != senderId
    ensures SenderName(participants, senderId) == participants[i].name
  {
    var r := FirstMatch(participants, senderId);
    assert r.Some?;
  }
}
