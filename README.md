# chatapp — a verified model of the chat client's own logic

The app is a React Native one-to-one chat client whose storage, sign-in and
push delivery are Firebase services. This project models the logic the app
itself contributes, with every Firebase call replaced by the answer it would
give:

- the conversation key `getChatId`, the message list kept from the store's
  snapshots, and the send button of the chat screen (module `Chat`);
- the contact list's case-insensitive search and the choice of the list shown
  (module `Home`);
- the form checks and the button handlers of the registration and login
  screens, with their `loading` flag (modules `Register`, `Login`, sharing
  `Forms`);
- the cloud function that sends a push notification when a message document
  is created (module `PushDispatch`).

`JsString` gives the JavaScript string operations the screens use (`trim`,
`toLowerCase`, `includes`, `<`). `Firestore` holds the stored documents. The
record `{id: doc.id, ...doc.data()}` that both list screens build from a
snapshot is modelled as `Doc(id, data)`. A screen's React state is a class
whose fields the handlers assign. A handler's alerts, navigations and calls
into Firebase come back as a sequence of effects in the order they happen.

Behaviour of the code as written that the proofs make explicit:

- `getChatId` is symmetric but not injective. `("a-b", "c")` and
  `("a", "b-c")` share the key `a-b-c`, because nothing forbids a dash inside
  a user id (`Chat.ChatIdNotInjective`). Called with the same id twice, it
  takes the else branch and gives `a-a`.
- A registration password needs at least seven characters (`length <= 6` is
  refused). The alert it shows asks for at least six.
- A users snapshot resets `filteredUsers` to all users but keeps the search
  text. While a query is typed, a snapshot therefore makes users that do not
  match it visible (`Home.SnapshotIgnoresActiveQuery`).
- When the recipient has no `users` document, the push function throws
  before its `try` block, so its promise rejects instead of returning `null`.

Two more facts about the code itself: a conversation key is not unique to its
pair of users, and a message document holds only `senderId`, `recipientId`,
`text` and `timestamp`. It has no `seen` flag or any other read state.

## Model

| member | source | states |
|---|---|---|
| `JsString.TrimStart` | screens/ChatScreen.js:42 | the result is a suffix of the input; everything dropped is whitespace; the result does not start with whitespace |
| `JsString.TrimEnd` | screens/ChatScreen.js:42 | the result is a prefix of the input; everything dropped is whitespace; the result does not end with whitespace |
| `JsString.BlankIffAllWhitespace` | screens/ChatScreen.js:42 | `s.trim()` is empty (falsy) exactly when every character of `s` is whitespace |
| `JsString.Trim` | screens/ChatScreen.js:42 | `s.trim()` is no longer than `s` and neither starts nor ends with whitespace |
| `JsString.IsBlank` | screens/ChatScreen.js:42 | the send guard's test: `s.trim()` is the empty string (characterised by `BlankIffAllWhitespace`) |
| `JsString.ToLower` | screens/HomeScreen.js:53-54 | `toLowerCase` keeps the length and lower-cases each character in place |
| `JsString.ContainsIffOccurs` | screens/HomeScreen.js:54 | `includes` holds exactly when the query occurs at some index of the name |
| `JsString.ContainsEmpty` | screens/HomeScreen.js:54 | every string includes the empty string |
| `JsString.Contains` | screens/HomeScreen.js:54 | `s.includes(sub)`, scanning start positions left to right (characterised by `ContainsIffOccurs`) |
| `JsString.LessIrreflexive` | screens/ChatScreen.js:22 | no id is `<` itself |
| `JsString.LessAsymmetric` | screens/ChatScreen.js:22 | `a < b` and `b < a` never both hold |
| `JsString.LessTotal` | screens/ChatScreen.js:22 | two different ids are ordered one way or the other |
| `JsString.LessTrichotomy` | screens/ChatScreen.js:22 | exactly one of `a < b`, `a == b`, `b < a` holds |
| `JsString.Less` | screens/ChatScreen.js:22 | string `<`: lexicographic on characters, a proper prefix being smaller (a strict total order by the four lemmas above) |
| `Chat.GetChatId` | screens/ChatScreen.js:21-23 | the key is one id, a dash, the other id, in one of the two orders, so its length is the sum of both plus one |
| `Chat.ChatIdSymmetric` | screens/ChatScreen.js:21-23 | `getChatId(a, b) == getChatId(b, a)` for all ids |
| `Chat.ChatIdOrdersIds` | screens/ChatScreen.js:22 | the key is the smaller id, `-`, the larger id; equal ids give `a-a`; its length is the sum of both lengths plus one |
| `Chat.ChatIdNotInjective` | screens/ChatScreen.js:22 | two different id pairs can give the same key |
| `Chat.SendAttempt` | screens/ChatScreen.js:41-50 | no write exactly when the input is whitespace only; otherwise one record with sender = current uid, recipient = route `userId`, text = the untrimmed input, server timestamp, added to `chats/{getChatId}/messages` |
| `Chat.SentMessageReachesPeer` | screens/ChatScreen.js:26-27 | a sent message lands in the collection the peer's screen subscribes to, is "mine" on the sender's screen (`senderId === currentUser.uid`) and not on the recipient's |
| `Chat.IsMyMessage` | screens/ChatScreen.js:63 | a message is drawn on the own side exactly when its `senderId` is the current uid |
| `Chat.ChatScreen.constructor` | screens/ChatScreen.js:14-17 | the screen starts with no messages and an empty input |
| `Chat.ChatScreen.SubscriptionPath` | screens/ChatScreen.js:26-28 | the listened collection is `chats/{getChatId(uid, userId)}/messages`, the same as the peer's screen computes with the ids swapped |
| `Chat.ChatScreen.OnSnapshot` | screens/ChatScreen.js:30-36 | each snapshot replaces the message list by the snapshot's documents, in order, each with its id |
| `Chat.ChatScreen.ChangeText` | screens/ChatScreen.js:84 | typing sets the input |
| `Chat.ChatScreen.SendMessage` | screens/ChatScreen.js:41-60 | issues `SendAttempt`'s write to the subscribed collection; a blank input writes nothing and is kept; the input is cleared only when the write resolves, and kept when it rejects |
| `Home.Matches` | screens/HomeScreen.js:53-54 | the filter callback: lower-cased user name includes the lower-cased query |
| `Home.FilterUsers` | screens/HomeScreen.js:52-55 | `users.filter(...)`: never longer than `users`, and holds only users of `users` that match |
| `Home.FilterIsSubsequence` | screens/HomeScreen.js:52-55 | the search result is an order-preserving subsequence of `users` |
| `Home.FilterMembership` | screens/HomeScreen.js:52-55 | a user is in the result exactly when it is in `users` and its lower-cased name includes the lower-cased query |
| `Home.FilterAppend` | screens/HomeScreen.js:52-55 | filtering a concatenation filters each part and concatenates |
| `Home.FilterEmptyQuery` | screens/HomeScreen.js:52-55 | the empty query keeps every user in order |
| `Home.FilterIdempotent` | screens/HomeScreen.js:52-55 | filtering a result again with the same query changes nothing |
| `Home.DisplayedUsers` | screens/HomeScreen.js:84 | the rendered list: `filteredUsers` while the query is non-empty, `users` otherwise |
| `Home.SearchShowsMatches` | screens/HomeScreen.js:84 | after a search the rendered list is the filter's result for that query, and all users when it is empty |
| `Home.SnapshotIgnoresActiveQuery` | screens/HomeScreen.js:34-35 | after a snapshot a non-empty query can sit above a user it does not match |
| `Home.HomeScreen.constructor` | screens/HomeScreen.js:14-16 | both lists and the query start empty |
| `Home.HomeScreen.OnSnapshot` | screens/HomeScreen.js:29-36 | a snapshot sets `users` and `filteredUsers` to its documents, so the rendered list is the snapshot |
| `Home.HomeScreen.HandleSearch` | screens/HomeScreen.js:50-57 | `searchQuery` becomes the query; `filteredUsers` is the filter of the full `users`, never of the previous result; the rendered list holds exactly the matching users |
| `Home.NarrowThenWiden` | screens/HomeScreen.js:50-57 | a narrower query followed by a wider one shows the wider query's result |
| `Register.ValidateForm` | screens/RegisterScreen.js:14-28 | valid exactly when all three fields are non-empty, the password is longer than 6 and the terms are accepted; a missing field wins over a short password, which wins over unaccepted terms, each with its own alert |
| `Register.ValidateFormBoundaries` | screens/RegisterScreen.js:15-22 | a 6-character password is refused and a 7-character one accepted; whitespace-only fields pass |
| `Register.RegisterScreen.constructor` | screens/RegisterScreen.js:8-12 | empty fields, not loading, terms not accepted |
| `Register.RegisterScreen.ChangeEmail` | screens/RegisterScreen.js:68 | typing sets the email |
| `Register.RegisterScreen.ChangePassword` | screens/RegisterScreen.js:77 | typing sets the password |
| `Register.RegisterScreen.ChangeUsername` | screens/RegisterScreen.js:61 | typing sets the user name |
| `Register.RegisterScreen.ToggleTerms` | screens/RegisterScreen.js:83 | the checkbox flips `acceptedTerms` |
| `Register.ToggleTermsTwice` | screens/RegisterScreen.js:83 | two presses restore the checkbox |
| `Register.RegisterScreen.HandleRegister` | screens/RegisterScreen.js:30-52 | an invalid form shows its alert, calls nothing and leaves `loading` alone; otherwise the effects are, in order: `loading` raised, account creation, then (after a created account) the profile update with the new uid and name, then (after that succeeds) the `users/{uid}` write of `{email, username, uid}`, then either the success alert and navigation to Login (all calls succeeded) or one error alert with the first rejection's message, and `loading` lowered last; the success alert and navigation never follow a rejection |
| `Login.ValidateForm` | screens/LoginScreen.js:11-17 | valid exactly when email and password are both non-empty; otherwise the one fields alert |
| `Login.LoginScreen.constructor` | screens/LoginScreen.js:7-9 | empty fields, not loading |
| `Login.LoginScreen.ChangeEmail` | screens/LoginScreen.js:43 | typing sets the email |
| `Login.LoginScreen.ChangePassword` | screens/LoginScreen.js:52 | typing sets the password |
| `Login.LoginScreen.HandleLogin` | screens/LoginScreen.js:19-31 | an invalid form shows its alert, calls nothing and leaves `loading` alone; otherwise the effects are exactly `loading` raised, one sign-in call, then navigation to Home on success or the retry alert with the rejection's message, and `loading` lowered |
| `PushDispatch.HasToken` | functions/index.js:16-18 | `if (expoPushToken)`: the token is present and not the empty string |
| `PushDispatch.BuildPayload` | functions/index.js:19-25 | the notification body: the token, `"default"`, `"Yeni Mesaj"`, the message text and the path's chat id |
| `PushDispatch.SendPushNotification` | functions/index.js:7-50 | the recipient is read by the message's `recipientId`; a rejected read or a missing document rejects the handler before anything is sent; otherwise at most one post, made exactly when the recipient's token is present and non-empty, with payload `{to: token, sound: "default", title: "Yeni Mesaj", body: text, data: {chatId: path chatId}}`; a failed send is logged once and never retried or rethrown; `null` is returned exactly when the recipient document was read |
| `PushDispatch.NotificationForSentMessage` | functions/index.js:19-25 | a message sent from a chat screen notifies the peer with the typed text and the key the peer's own chat screen uses |

## Left out

- Firebase itself (sign-in, sign-up, profile update, document reads and writes, live queries and their unsubscription, `serverTimestamp`). Each call is a parameter giving its answer, a rejection included. The users query's `uid != currentUser.uid` condition is evaluated by the store, so snapshots are taken as given.
- A signed-out user (`auth.currentUser` null). HomeScreen's guard `if (!currentUser) return;` is not modelled. ChatScreen reads `currentUser.uid` at lines 26, 43 and 63 and would throw; its model takes the uid as a string. The logout button only calls `signOut` and navigates.
- `fetch`, its HTTP headers, the JSON encoding of the payload, and `console` output. Log lines are effects carrying their text. `scrollToEnd` and all rendering and styling are also left out.
- TermsScreen, PrivacyPolicyScreen and App.js hold static text and navigation wiring.
- `JsString.LowerChar`: lower-cases ASCII letters only, not the full Unicode case mapping of `toLowerCase`.
- `JsString.Less`: compares characters as Unicode scalar values; JavaScript compares UTF-16 code units, which differs only between supplementary characters and BMP characters above the surrogate range.
- `Register.ValidateForm`: the password length is counted in characters, not UTF-16 code units.
- `Chat.ChatScreen.SendMessage`: does not model the `console.error` line written when `addDoc` rejects.
- `PushDispatch.RecipientDoc`: the token is modelled as an optional string. Truthy non-string values of `expoPushToken` are not modelled.
- A stored document's own `id` field would override `doc.id` in the spread. This is not modelled: no document this app writes has such a field.
- React batches state updates and re-renders between awaits. The model runs each handler to completion, so `loading` is observed only through the `SetLoading` effects.
