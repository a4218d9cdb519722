/** The documents the app reads from and writes to the hosted document
    store. The store itself (queries, listeners, server time) is not
    modelled: its answers are parameters of the operations that use them. */
module Firestore {

  /** A document as a screen keeps it after a snapshot: the document id next
      to the stored fields, which is what `{id: doc.id, ...doc.data()}`
      builds. */
  datatype Doc<T> = Doc(id: string, data: T)

  /** The `timestamp` field: the `serverTimestamp()` sentinel a client
      writes, or the time the server filled in. */
  datatype Timestamp = ServerTimestamp | At(millis: int)

  /** A document of `chats/{chatId}/messages`. */
  datatype MessageRecord = MessageRecord(senderId: string, recipientId: string, text: string, timestamp: Timestamp)

  /** A document of `users/{uid}`, as registration writes it. */
  datatype UserRecord = UserRecord(email: string, username: string, uid: string)

  /** The collection that holds one conversation's messages. */
  function MessagesPath(chatId: string): seq<string> {
    ["chats", chatId, "messages"]
  }
}
