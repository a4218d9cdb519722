/** The cloud function that runs when a message document is created: it
    looks up the recipient's push token and, when there is one, posts one
    notification to the push service. */
module PushDispatch {
  import opened Wrappers
  import opened Firestore
  import Chat

  const PushEndpoint := "https://exp.host/--/api/v2/push/send"
  const NotificationSound := "default"
  const NotificationTitle := "Yeni Mesaj"

  /** The `data` field of the notification. */
  datatype PushData = PushData(chatId: string)

  /** The JSON body posted to the push service. */
  datatype PushPayload = PushPayload(to: string, sound: string, title: string, body: string, data: PushData)

  /** The fields of a `users/{uid}` document the function reads. */
  datatype RecipientDoc = RecipientDoc(expoPushToken: Option<string>)

  /** What `userRef.get()` can reach: the `users` collection keyed by uid,
      or nothing, when the read rejects with `error`. */
  datatype UserStore = Unreachable(error: string) | Collection(docs: map<string, RecipientDoc>)

  /** The read of `users/{uid}` resolves with an existing document. */
  predicate Found(store: UserStore, uid: string) {
    store.Collection? && uid in store.docs
  }

  /** What the awaited `fetch` gives: a rejection, or a response whose
      `ok` says whether the status was 2xx. */
  datatype FetchResult = NetworkError(error: string) | Response(ok: bool, statusText: string)

  /** One observable step of the handler. */
  datatype PushEffect =
    | ReadUser(uid: string)
    | Post(url: string, payload: PushPayload)
    | LogInfo(text: string)
    | LogError(prefix: string, error: string)

  /** How the handler's promise settles. */
  datatype HandlerResult = ReturnsNull | Throws(error: string)

  /** `if (expoPushToken)`: present and not the empty string. */
  predicate HasToken(doc: RecipientDoc) {
    doc.expoPushToken.Some? && doc.expoPushToken.value != ""
  }

  /** The notification for `message`, addressed to `token`; the chat id is
      the `{chatId}` segment of the created document's path. */
  function BuildPayload(token: string, message: MessageRecord, chatIdParam: string): PushPayload {
    PushPayload(token, NotificationSound, NotificationTitle, message.text, PushData(chatIdParam))
  }

  /** `sendPushNotification` for the document `chats/{chatIdParam}/messages/…`
      holding `message`. `store` is what the read of the recipient's user
      document reaches and `fetch` the answer the push service would give.
      A rejected read, or a missing recipient document (its `data()` is
      undefined, so reading the token throws), happens before the `try`
      block and rejects the handler's promise. A failed send is logged once
      and swallowed: the handler never retries and never rethrows it. */
  method SendPushNotification(chatIdParam: string, message: MessageRecord, store: UserStore, fetch: FetchResult)
    returns (effects: seq<PushEffect>, result: HandlerResult)
    ensures |effects| >= 1 && effects[0] == ReadUser(message.recipientId)
    ensures result == ReturnsNull <==> Found(store, message.recipientId)
    ensures store.Unreachable? ==> result == Throws(store.error)
    ensures result.Throws? ==> effects == [ReadUser(message.recipientId)]
    ensures forall i :: 0 <= i < |effects| && effects[i].Post? ==>
      i == 1 && Found(store, message.recipientId) && HasToken(store.docs[message.recipientId]) &&
      effects[i] == Post(PushEndpoint, BuildPayload(store.docs[message.recipientId].expoPushToken.value, message, chatIdParam))
    ensures (|effects| > 1 && effects[1].Post?) <==>
      Found(store, message.recipientId) && HasToken(store.docs[message.recipientId])
    ensures forall i :: 0 <= i < |effects| && effects[i].LogError? ==>
      effects[1].Post? && !(fetch.Response? && fetch.ok)
    ensures |effects| > 1 && effects[1].Post? ==>
      |effects| == 3 && (effects[2].LogError? <==> !(fetch.Response? && fetch.ok))
  {
    var recipientId := message.recipientId;
    effects := [ReadUser(recipientId)];
    if store.Unreachable? {
      result := Throws(store.error);
      return;
    }
    if recipientId !in store.docs {
      result := Throws("TypeError: Cannot read properties of undefined (reading 'expoPushToken')");
      return;
    }
    var userDoc := store.docs[recipientId];
    if HasToken(userDoc) {
      var payload := BuildPayload(userDoc.expoPushToken.value, message, chatIdParam);
      effects := effects + [Post(PushEndpoint, payload)];
      match fetch {
        case NetworkError(error) =>
          effects := effects + [LogError("Error sending notification:", error)];
        case Response(ok, statusText) =>
          if !ok {
            effects := effects + [LogError("Error sending notification:", "Error: Error sending notif: " + statusText)];
          } else {
            effects := effects + [LogInfo("Notification sent successfully")];
          }
      }
    } else {
      effects := effects + [LogInfo("No Expo push token for user: " + recipientId)];
    }
    result := ReturnsNull;
  }

  /** The notification for a message sent from a chat screen reaches the
      peer's device, carries the text as typed, and names the conversation
      the peer's own chat screen listens to. */
  lemma NotificationForSentMessage(me: string, peer: string, input: string, token: string)
    ensures var w := Chat.SendAttempt(me, peer, input);
      w.Some? ==>
        var p := BuildPayload(token, w.value.record, w.value.path[1]);
        p.to == token && p.body == input && p.data.chatId == Chat.GetChatId(peer, me) &&
        w.value.record.recipientId == peer
  {
    Chat.ChatIdSymmetric(me, peer);
  }
}
