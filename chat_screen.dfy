/** The direct-message screen: the conversation key, the live message list
    and the send button. */
module Chat {
  import opened Wrappers
  import opened JsString
  import opened Firestore

  /** `getChatId(uid1, uid2)`: the smaller id, a dash, the larger id. */
  function GetChatId(uid1: string, uid2: string): (r: string)
    ensures r == uid1 + "-" + uid2 || r == uid2 + "-" + uid1
    ensures |r| == |uid1| + |uid2| + 1
  {
    if Less(uid1, uid2) then uid1 + "-" + uid2 else uid2 + "-" + uid1
  }

  /** The key does not depend on which participant asks for it. */
  lemma ChatIdSymmetric(a: string, b: string)
    ensures GetChatId(a, b) == GetChatId(b, a)
  {
    LessTrichotomy(a, b);
  }

  /** The smaller id always comes first; a pair of equal ids takes the
      else branch and gives the id twice. */
  lemma ChatIdOrdersIds(a: string, b: string)
    ensures Less(a, b) ==> GetChatId(a, b) == a + "-" + b
    ensures Less(b, a) ==> GetChatId(a, b) == b + "-" + a
    ensures a == b ==> GetChatId(a, b) == a + "-" + a
    ensures |GetChatId(a, b)| == |a| + |b| + 1
  {
    LessTrichotomy(a, b);
  }

  /** Different pairs of ids can share a key, since an id may itself
      contain a dash. */
  lemma ChatIdNotInjective()
    ensures GetChatId("a-b", "c") == GetChatId("a", "b-c")
    ensures "a-b" != "a" && "a-b" != "b-c"
  {
    assert Less("a-b", "c");
    assert Less("a", "b-c");
  }

  /** The write `sendMessage` issues: the new message document and the
      collection it is added to. */
  datatype PendingWrite = PendingWrite(path: seq<string>, record: MessageRecord)

  /** What pressing send asks of the store for the input `input`: nothing
      when the input trims to "", otherwise one message from `me` to `peer`
      carrying the input as typed, in the collection of their conversation. */
  function SendAttempt(me: string, peer: string, input: string): (w: Option<PendingWrite>)
    ensures w.None? <==> AllWhitespace(input)
    ensures w.Some? ==> w.value.path == MessagesPath(GetChatId(me, peer))
    ensures w.Some? ==> w.value.record == MessageRecord(me, peer, input, ServerTimestamp)
  {
    BlankIffAllWhitespace(input);
    if IsBlank(input) then None
    else Some(PendingWrite(MessagesPath(GetChatId(me, peer)), MessageRecord(me, peer, input, ServerTimestamp)))
  }

  /** `isMyMessage`: the message is drawn on the sender's side. */
  predicate IsMyMessage(item: Doc<MessageRecord>, currentUid: string) {
    item.data.senderId == currentUid
  }

  /** A message `me` sends lands in the collection the other participant's
      screen listens to, and is drawn as its own on the sender's screen and
      as the other's on the recipient's. */
  lemma SentMessageReachesPeer(me: string, peer: string, input: string, id: string)
    ensures var w := SendAttempt(me, peer, input);
      w.Some? ==>
        w.value.path == MessagesPath(GetChatId(peer, me)) &&
        IsMyMessage(Doc(id, w.value.record), me) &&
        (me != peer ==> !IsMyMessage(Doc(id, w.value.record), peer))
  {
    ChatIdSymmetric(me, peer);
  }

  /** The state of one open conversation with `userId`, seen by
      `currentUid`. */
  class ChatScreen {
    const currentUid: string
    const userId: string
    var messages: seq<Doc<MessageRecord>>
    var messageInput: string

    constructor (currentUid: string, userId: string)
      ensures this.currentUid == currentUid && this.userId == userId
      ensures messages == [] && messageInput == ""
    {
      this.currentUid := currentUid;
      this.userId := userId;
      messages := [];
      messageInput := "";
    }

    /** The collection the screen subscribes to, ordered by timestamp. */
    function SubscriptionPath(): (p: seq<string>)
      ensures p == MessagesPath(GetChatId(userId, currentUid))
    {
      ChatIdSymmetric(currentUid, userId);
      MessagesPath(GetChatId(currentUid, userId))
    }

    /** The snapshot listener: the list becomes the documents of the
        snapshot, in the store's order, each with its id. */
    method OnSnapshot(docs: seq<Doc<MessageRecord>>)
      modifies this`messages
      ensures messages == docs
    {
      messages := docs;
    }

    /** `onChangeText={setMessageInput}` */
    method ChangeText(text: string)
      modifies this`messageInput
      ensures messageInput == text
    {
      messageInput := text;
    }

    /** `sendMessage`, with `outcome` the result of the awaited `addDoc`.
        The input is cleared only once the write has resolved. */
    method SendMessage(outcome: Outcome) returns (write: Option<PendingWrite>)
      modifies this`messageInput
      ensures write == SendAttempt(currentUid, userId, old(messageInput))
      ensures write.None? ==> messageInput == old(messageInput)
      ensures write.Some? ==> write.value.path == SubscriptionPath()
      ensures messageInput == if write.Some? && outcome.Success? then "" else old(messageInput)
    {
      write := None;
      if !IsBlank(messageInput) {
        var chatId := GetChatId(currentUid, userId);
        var newMessage := MessageRecord(currentUid, userId, messageInput, ServerTimestamp);
        write := Some(PendingWrite(MessagesPath(chatId), newMessage));
        if outcome.Success? {
          messageInput := "";
        }
      }
    }
  }
}
