# yapping_server, modelled in Dafny

This project models the core of yapping_server, the back end of a chat application. Every client
connection has a dispatcher (`Coms`). The dispatcher decodes envelopes (`ServerMessage`) and
handles them in the order the delivery manager releases them:

- sessions log in or sign up;
- queries are answered from the MongoDB store;
- notifications are persisted; then they are posted to the router as `CLIENT_MESSAGE`;
- modifications remove a friend or change a user tag.

Every answer goes back through `send_msg`. `update` re-sends what the delivery manager hands
back, then drains the connection's own notification channel to the client.

The router (`NotificationManager`) keeps a directory from user id to the sending half of that
user's channel. It is filled by `NOTIFY_USER` and emptied by `USER_OFFLINE`. It forwards friend
requests and acceptances to the receiver when the receiver is online.

Two smaller components are also modelled:

- `UserManager` is the earlier router, built on shared `ServerUser` records.
- `ChatManager` is a registry of one broadcast topic per chat.

The store (`MongoDB`) keeps the `Users` and `Notifications` collections. It implements:

- login and sign-up, with the friend expansion;
- `$addToSet` friend links;
- the notification lookups;
- the tag and id queries.

Layout, one module per source file:

- `Domain.dfy`: the shared data model (ids, users, chats, notifications, the envelope).
  `Domain.IsValid` is `is_user_valid`: an id is valid when it is not the unset id 0.
- `Channel.dfy`: the notification channel of one connection, as a class with a queue.
- `Store.dfy`: `mongo_db.rs`. Pure functions over the collections, plus the `MongoDb` class whose
  methods update them.
- `ChatManager.dfy`, `NotificationManager.dfy`, `UserManager.dfy`: the three managers, as classes
  whose methods update their maps. The routers' loops are `Drain` methods proved against
  functions of the command run.
- `Coms.dfy`: the dispatcher.
  - Each handler is a method on the live connection and store objects.
  - Each method is proved equal to a step function on a value snapshot (`ComsState`): its
    `ensures` reads `Step(result, Snapshot()) == XStep(old(Snapshot()), ...)`.
  - The properties of each handler are lemmas about its step function.

Where the declared router enum and its callers disagree, the callers are followed.
`notification_manager.rs` declares `NOTIFY_USER(UUID, Sender)` and no `REFRESH_USER`. `coms.rs`
posts `NOTIFY_USER(user, chats, sender)` and `REFRESH_USER(friend)`. The router's command type
therefore carries the chat list and a `RefreshUser` command. The router has no rule for either
of them, so the model ignores both. `coms.rs` also posts `CLIENT_MESSAGE(RESEND_USER(friend))`
after a friend removal. The router's `match` on the notification kind has no arm for
`RESEND_USER`, so the model routes it nowhere.

The router's two-field `MESSAGE(chat, message)` pattern is the kind the dispatcher calls
`NEW_MESSAGE`: here `NewMessage(chatId, message)`. That arm is `todo!()` and is excluded. The
one-field `MESSAGE(chat)` unread marker that the dispatcher stores is `Message(chatId)` here.
The router has no arm for it either, so it is routed nowhere.

The model keeps the source's behaviour as written, including these cases:

- The `NEW_CHAT` friends check builds an iterator, which is never driven. So only the creator's
  membership decides whether the chat is written.
- `send_msg` writes to the socket before it looks the user up. A failed lookup therefore leaves the
  message written but not recorded as sent.
- In the `NEW_MESSAGE` loop, the message is written once per other member.
- The loop also stops at the first failure. A marker may then be stored without its message.

## Model

| member | source | states |
|---|---|---|
| Domain.ChatIds | src/coms.rs:137-139 | the ids NOTIFY_USER carries are the fetched chats' ids, one per chat, in order |
| Channel.Mailbox.constructor | src/coms.rs:32 | a new channel is empty and its receiver is alive |
| Channel.Mailbox.Send | src/notification_manager.rs:61-65 | a send appends exactly the notification while the receiver is alive; otherwise it fails with "channel closed" and the queue is unchanged |
| Channel.Mailbox.TryRecv | src/coms.rs:55 | `try_recv` yields the oldest pending notification and removes only it; on an empty queue it yields nothing |
| Channel.Mailbox.DropReceiver | src/coms.rs:31-35 | after the receiving half that the connection owns is dropped, with the connection, the channel reports its receiver gone; no modelled operation drives it |
| Store.FirstMatch | src/mongo_db.rs:196-199 | `find_one` picks the first record that matches: it matches, and no earlier record does |
| Store.GetDbUser | src/mongo_db.rs:196-199 | succeeds exactly when some record matches, with the first matching record; otherwise "Failed to find User!" |
| Store.GetStripedUser | src/mongo_db.rs:186-194 | succeeds exactly when the lookup does; the profile keeps the record's id and tag and carries no credentials and no friends |
| Store.ExpandFriendsSpec | src/mongo_db.rs:58-63 | the friend loop succeeds exactly when every listed friend exists; then it yields one profile per listed id, in order; otherwise it fails with "Failed to find User!" |
| Store.ExpandFriendsPrefixFails | src/mongo_db.rs:90-95 | a friend missing early in the list fails the whole expansion (`?` in the loop) |
| Store.FullUserSpec | src/mongo_db.rs:87-101 | `login` and `get_full_user` succeed exactly when the record and all its friends exist; the profile has the record's id, tag and credentials, and one friend per listed id |
| Store.SignUpError | src/mongo_db.rs:72-77 | "User already exist!" exactly when the email is taken; "Please fill all the fields!" exactly when it is free and a field is empty or the password invalid; no other error |
| Store.SignUpResult | src/mongo_db.rs:71-85 | sign-up fails exactly with the validation error; on success it yields a friendless profile with the new id and the given tag |
| Store.AddToSet | src/mongo_db.rs:105 | `$addToSet` adds exactly the friend id, and changes nothing when the id is already there |
| Store.AddFriend | src/mongo_db.rs:103-106 | `update_one` changes only the first record with the user's id, by adding the friend to its list; no such record, no change |
| Store.FirstMatchByIdKept | src/mongo_db.rs:103-106 | an update that keeps a record's id keeps which record every id lookup finds |
| Store.AddFriendIdempotent | src/mongo_db.rs:105 | repeating `insert_friend` changes nothing |
| Store.GetUserNotifications | src/mongo_db.rs:114-123 | exactly the stored notifications addressed to the user |
| Store.OnlyFriendRequests | src/mongo_db.rs:127-132 | exactly the FRIEND_REQUEST notifications among those given |
| Store.GetUserFriendRequests | src/mongo_db.rs:125-135 | exactly the user's stored FRIEND_REQUEST notifications |
| Store.FriendRequestsAppend | src/mongo_db.rs:125-135 | the friend-request lookup keeps stored order: records stored later are answered after records stored earlier |
| Store.UserNotificationsAppend | src/mongo_db.rs:114-123 | the notification lookup keeps stored order across a concatenation |
| Store.OnlyFriendRequestsAppend | src/mongo_db.rs:127-132 | the friend-request filter keeps order across a concatenation |
| Store.FirstNotification | src/mongo_db.rs:137-139 | `delete_one` targets the first record with the id, and no earlier record has it |
| Store.RemoveNotification | src/mongo_db.rs:137-139 | when some record has the id, exactly one record, the first with it, is deleted, and the rest are kept; otherwise nothing changes |
| Store.RemoveEachShrinks | src/coms.rs:250-256 | removing a run of ids only ever deletes records |
| Store.RemoveNotificationUnique | src/mongo_db.rs:137-139 | with unique ids, removal deletes exactly the record with that id, and the ids stay unique |
| Store.RemoveEachUnique | src/coms.rs:250-256 | with unique ids, removing a run of ids deletes exactly the records whose id is in the run |
| Store.FoundBounded | src/mongo_db.rs:141-151 | a tag or id query has at most one answer per input, and every answer is stripped |
| Store.FoundAppend | src/mongo_db.rs:172-182 | query answers keep input order across a concatenation |
| Store.FoundAllMatch | src/mongo_db.rs:141-151 | when every input names a user, there is exactly one answer per input, in input order |
| Store.TagFilters | src/mongo_db.rs:144-145 | one `{ tag }` filter per tag, in order |
| Store.IdFilters | src/mongo_db.rs:175-176 | one `{ _id }` filter per id, in order |
| Store.ContainsTag | src/mongo_db.rs:153-170 | the pattern query yields at most one profile per stored user, each stripped |
| Store.MongoDb.constructor | src/mongo_db.rs:44-46 | a handle on the given collections, with no writes logged |
| Store.MongoDb.Expand | src/mongo_db.rs:90-98 | the friend loop's result is the expansion, or its first failure |
| Store.MongoDb.Login | src/mongo_db.rs:52-69 | `login` yields the full profile of the first record with these credentials |
| Store.MongoDb.GetFullUser | src/mongo_db.rs:87-101 | `get_full_user` yields the full profile of the record with this id |
| Store.MaxUuid | src/mongo_db.rs:79 | an upper bound of every stored user id |
| Store.NextUserId | src/mongo_db.rs:79 | the next user id is valid, past the last id handed out, and held by no stored user |
| Store.FreshRecordFirst | src/mongo_db.rs:196-199 | a record appended under an id no stored user holds is the first match of that id |
| Store.FreshRecordFound | src/mongo_db.rs:196-199 | an id lookup finds a record appended under a fresh id |
| Store.MongoDb.FreshId | src/mongo_db.rs:79 | each new id is valid, past every id handed out before, and held by no stored user |
| Store.MongoDb.SignUp | src/mongo_db.rs:71-85 | on success exactly one record is appended, under an id no other user holds, and an id lookup then finds it; on failure the store is unchanged |
| Store.ExpandedFriendsKeepCredentials | src/mongo_db.rs:58-63 | the friends that `login` and `get_full_user` return are full records that keep their credentials |
| Store.MongoDb.InsertFriend | src/mongo_db.rs:103-106 | the collection after `insert_friend` is the `$addToSet` update |
| Store.MongoDb.InsertNotification | src/mongo_db.rs:108-112 | exactly one record, addressed to the user, is appended |
| Store.MongoDb.RemoveNotificationById | src/mongo_db.rs:137-139 | the collection after `remove_notification` is the first-match deletion |
| Store.MongoDb.QueryBy | src/mongo_db.rs:142-150 | the query loop collects one stripped profile per matching input, in order |
| Store.MongoDb.QueryByTag | src/mongo_db.rs:141-151 | `query_by_tag` gives at most one stripped profile per tag, in tag order |
| Store.MongoDb.QueryByUuid | src/mongo_db.rs:172-182 | `query_by_uuid` gives at most one stripped profile per id, in id order |
| Store.MongoDb.Write | src/coms.rs:298-303 | a store write is logged exactly when it succeeds; a failure is reported and logs nothing |
| ChatManager.EnsureTopic | src/chat_manager.rs:12-14 | the registry gains the chat; an existing topic is kept, and a new one is empty with capacity 50 |
| ChatManager.PostTo | src/chat_manager.rs:16-21 | the chat's topic (created if missing) receives the notification last; every other topic is unchanged |
| ChatManager.EnsureTopicIdempotent | src/chat_manager.rs:12-14 | `new_chat` twice is `new_chat` once |
| ChatManager.PostsLeaveOthers | src/chat_manager.rs:16-21 | posts to other chats never touch a chat's topic |
| ChatManager.PostAll | src/chat_manager.rs:16-21 | posting never removes a chat |
| ChatManager.PostsInOrder | src/chat_manager.rs:16-21 | a run of posts to one chat reaches its topic in posting order |
| ChatManager.ChatManager.constructor | src/chat_manager.rs:6-10 | the default registry has no chats |
| ChatManager.ChatManager.NewChat | src/chat_manager.rs:12-14 | the registry after `new_chat` is the keep-or-create update |
| ChatManager.ChatManager.Post | src/chat_manager.rs:16-21 | the registry after `post` is the create-then-send update |
| ChatManager.ChatManager.Subscribe | src/chat_manager.rs:23-26 | a receiver exactly for a registered chat, starting at its topic's tail; no topic is created |
| NotificationManager.Addressee | src/notification_manager.rs:59-60 | only friend requests and acceptances have an addressee: their receiver |
| NotificationManager.NextDirectory | src/notification_manager.rs:44-52 | NOTIFY_USER inserts or replaces the user's entry; USER_OFFLINE removes exactly the sender's entry; other commands leave the directory alone |
| NotificationManager.Target | src/notification_manager.rs:59-66 | a command reaches a mailbox exactly when it is a friend request or acceptance and its receiver is online; then it is the receiver's mailbox |
| NotificationManager.MailboxesMonotone | src/notification_manager.rs:43-69 | a longer command run can reach at least the mailboxes a prefix could |
| NotificationManager.DirectoryAfterWithin | src/notification_manager.rs:43-69 | every mailbox in the directory after a run was there before or was registered by the run |
| NotificationManager.OnlineThenOffline | src/notification_manager.rs:45-51 | a user who registers and then goes offline leaves the directory as it was, minus that user |
| NotificationManager.ClientMessagesKeepDirectory | src/notification_manager.rs:53-67 | client messages never change who is online |
| NotificationManager.DirectoryAfterAppend | src/notification_manager.rs:43 | commands are taken one after another: two runs in a row compose |
| NotificationManager.DeliveriesAppend | src/notification_manager.rs:43 | what a mailbox receives from two runs is what it receives from the first, then from the second |
| NotificationManager.DeliveriesArePostedFriendEvents | src/notification_manager.rs:59-66 | only friend requests and acceptances are pushed, each exactly as it was posted |
| NotificationManager.UnreachedMailboxGetsNothing | src/notification_manager.rs:61-65 | a mailbox that is never online during the run receives nothing |
| NotificationManager.NotificationManager.constructor | src/notification_manager.rs:23-32 | the router starts with no one online and an empty topic registry |
| NotificationManager.NotificationManager.Process | src/notification_manager.rs:44-67 | one command updates the directory as NextDirectory states; only the targeted mailbox can grow, and a closed one is left unchanged |
| NotificationManager.NotificationManager.Drain | src/notification_manager.rs:43-69 | after the queued commands, the directory is the run's directory; every reachable mailbox that is still open has received exactly its deliveries, in order |
| UserManager.ServerUser.constructor | src/user_manager.rs:73-83 | a new shared record holds the default user, an empty channel and no chat receivers |
| UserManager.NextDirectory | src/user_manager.rs:44-46 | NOTIFY_USER inserts or replaces the user's entry; client messages change nothing |
| UserManager.Target | src/user_manager.rs:51-55 | a friend request reaches the receiver's shared record exactly when the receiver is online |
| UserManager.DirectoryOnlyGrows | src/user_manager.rs:42-59 | nobody ever goes offline: every user online before a run, or registered by it, is online after it |
| UserManager.ForwardedHideReceiver | src/user_manager.rs:51-55 | every forwarded request names the unset id as receiver, and the sender of a request that was posted |
| UserManager.ReachableTail | src/user_manager.rs:42-59 | after the first message, the rest of the run reaches no record that the whole run could not |
| UserManager.DirectoryAfterWithin | src/user_manager.rs:42-59 | everyone online after a run was online before it or registered by it |
| UserManager.UserManager.constructor | src/user_manager.rs:21-31 | the router starts with no one online and an empty topic registry |
| UserManager.UserManager.Process | src/user_manager.rs:43-57 | one message updates the directory as NextDirectory states; only the targeted record's channel grows, by the forwarded request |
| UserManager.UserManager.Drain | src/user_manager.rs:42-59 | after the queued messages, the directory is the run's directory; every reachable record's channel has received exactly its forwarded requests, in order |
| Coms.ChatsAnswer | src/coms.rs:176-187 | USER_CHATS answers with the chats exactly for a valid user, and with "User is invalid!" otherwise |
| Coms.ChatMessagesAnswer | src/coms.rs:188-198 | CHAT_MESSAGES answers with the chat's messages exactly for a valid member; otherwise with the not-a-member error |
| Coms.OtherMembers | src/coms.rs:240-241 | the member loop visits exactly the members other than the caller |
| Coms.OtherMembersCounts | src/coms.rs:240-241 | the caller is skipped and every other member keeps its number of occurrences |
| Coms.MarkersSnoc | src/coms.rs:240-245 | a loop-step helper of the member loop: one more other member adds one marker, with the next id |
| Coms.RepeatSnoc | src/coms.rs:240-245 | a loop-step helper of the member loop: one more member adds one message write |
| Coms.ReadMarkers | src/coms.rs:250-256 | MESSAGE_READ collects the ids of exactly the MESSAGE(c) markers it was given |
| Coms.SharedChatRemovals | src/coms.rs:301-305 | exactly one removal for each chat that lists the former friend |
| Coms.Rendered | src/coms.rs:55-62 | one outgoing message per drained notification |
| Coms.RenderedAt | src/coms.rs:55-62 | the k-th notification goes out under the k-th id: a fresh profile for RESEND_USER and FRIEND_ACCEPTED, the notification itself otherwise |
| Coms.Coms.constructor | src/coms.rs:26-45 | a new connection has no user bound and a fresh, empty channel |
| Coms.Coms.SendStep | src/coms.rs:103-116 | a missing message is refused with "Message received is a Response!". A present message is written to an open socket; it is recorded as sent exactly when the bound user can also be looked up |
| Coms.Coms.ResendStep | src/coms.rs:332-335 | the bound user's full profile goes out under the next id; it is recorded exactly when the socket is open and the lookup succeeds |
| Coms.Coms.SessionStep | src/coms.rs:118-149 | a failed login or sign-up answers its error and changes nothing. On success the user is bound, one NOTIFY_USER with the user's chat ids is posted, and the answer carries the user. Sign-up appends exactly one record |
| Coms.Coms.QueryReply | src/coms.rs:151-205 | a user who is not logged in is refused. Otherwise each query gets the store's answer: at most one stripped profile per input and the friend requests; USER_CHATS the fetched chats or the fetch's error; CHAT_MESSAGES the messages for a member, the fetch's error, or the not-a-member error. Result kinds are rejected as invalid |
| Coms.Coms.NewChatStep | src/coms.rs:212-235 | the chat is written exactly when a valid caller's profile loads, the caller is a member and the write succeeds. A failed write becomes an error answer. The arm aborts exactly when a valid caller's profile lookup fails; in every other case it continues |
| Coms.Coms.MarkMembersWritten | src/coms.rs:240-245 | with working writes, every other member gets one MESSAGE(c) marker, in order, under consecutive fresh ids; the message is written once per marker |
| Coms.Coms.MarkMembersStopped | src/coms.rs:242-243 | after the first failure (`?`), no further member is visited |
| Coms.Coms.MarkMembersRefused | src/coms.rs:242-243 | when the message write fails, the loop stops after one marker for the first other member, with the write's error |
| Coms.Coms.MarkOneKeepsUniqueIds | src/coms.rs:241-244 | one turn of the member loop keeps the stored notification ids unique and none past the local id counter |
| Coms.Coms.MarkMembersKeepsUniqueIds | src/coms.rs:240-245 | the member loop keeps the stored notification ids unique and none past the local id counter |
| Coms.Coms.NewMessageKeepsUniqueIds | src/coms.rs:236-247 | when no stored notification id is past the local id counter, NEW_MESSAGE keeps the stored ids unique and none past the counter |
| Coms.Coms.NewMessageStep | src/coms.rs:236-247 | a chat that cannot be fetched aborts; a caller who is not a valid member changes nothing; only notifications, writes and ids can change |
| Coms.Coms.NewMessageMarksOthers | src/coms.rs:236-247 | a member's NEW_MESSAGE appends one MESSAGE(c) marker per other member occurrence, none for the caller, and keeps the existing notifications |
| Coms.Coms.NewMessageRefused | src/coms.rs:242-243 | when the message write fails, at most one marker is stored; the arm aborts exactly when there is another member |
| Coms.Coms.MessageReadStep | src/coms.rs:248-262 | MESSAGE_READ only touches the stored notifications, and changes nothing for an invalid caller |
| Coms.Coms.MessageReadOnlyRemoves | src/coms.rs:248-262 | MESSAGE_READ only ever deletes stored notifications |
| Coms.Coms.MarkerIdsOf | src/coms.rs:250-252 | with unique ids, a record's id is collected exactly when it is one of the caller's MESSAGE(c) markers |
| Coms.Coms.MessageReadClearsMarkers | src/coms.rs:248-262 | with unique ids, MESSAGE_READ deletes exactly the caller's MESSAGE(c) markers and keeps every other notification |
| Coms.Coms.FriendRequestStep | src/coms.rs:263-268 | only the sender's own request is stored, for the receiver; a failed store aborts |
| Coms.Coms.FriendAcceptedStep | src/coms.rs:269-281 | only the named sender changes the store: the notification is removed and each user gains the other as a friend. The arm continues exactly when the profile re-send succeeds |
| Coms.Coms.FriendAcceptedLinks | src/coms.rs:274-276 | after an acceptance, each of the two users lists the other as a friend |
| Coms.Coms.ArmStep | src/coms.rs:211-283 | no arm binds a user, posts to the router or touches the received log |
| Coms.Coms.NotificationStep | src/coms.rs:207-293 | refused before anything else unless logged in. The answer is OK exactly when the arm falls through; then CLIENT_MESSAGE is posted to the router. An aborting arm posts nothing |
| Coms.Coms.RemoveChatsSpec | src/coms.rs:301-305 | the chat loop only writes; it passes exactly when no attempted removal fails, and then it has removed exactly the chats shared with the former friend, in order |
| Coms.Coms.RemoveChatsStopped | src/coms.rs:303 | after the first failed removal, no further chat is visited |
| Coms.Coms.RemoveFriendKeeps | src/coms.rs:297-314 | REMOVE_FRIEND does nothing for an invalid caller; otherwise it never changes the binding, the profiles, the stored notifications, the id counter or the received log |
| Coms.Coms.RemoveFriendPasses | src/coms.rs:297-314 | a REMOVE_FRIEND that passes has written both unfriendings and the shared chats' removals, re-sent the profile, and posted RESEND_USER for the former friend |
| Coms.Coms.RefreshesSpec | src/coms.rs:321-323 | with the router up, each friend gets a REFRESH_USER, in order; with it down, nothing is posted and the loop fails as soon as there is a friend |
| Coms.Coms.RefreshesStopped | src/coms.rs:322 | after the first failed send, no further friend is visited |
| Coms.Coms.UserTagStep | src/coms.rs:315-325 | only the caller's own tag is changed; on success the tag write is logged and every friend gets a refresh |
| Coms.Coms.UnboundUserTagWrites | src/coms.rs:315-317 | USER_TAG has no validity gate: on a connection with no user bound, the tag write for the unset id is still issued |
| Coms.Coms.ModificationStep | src/coms.rs:295-330 | success is always the OK answer under the request's id; a modification that does not apply to the caller is a no-op |
| Coms.Coms.BatchStopped | src/coms.rs:87-101 | after the first failing envelope, the rest of the batch is not processed |
| Coms.Coms.ResponseEndsBatch | src/coms.rs:94-97 | an inbound RESPONSE fails the batch; neither it nor anything after it has any effect |
| Coms.Coms.DispatchKeepsReceived | src/coms.rs:88-97 | handling one envelope never touches the received log |
| Coms.Coms.BatchKeepsReceived | src/coms.rs:87-101 | handling a batch never touches the received log |
| Coms.Coms.FailedLoginEndsBatch | src/coms.rs:93-97 | on a connection with no user bound, a failed login's answer cannot be sent (`get_full_user(0)` fails in `send_msg`, src/coms.rs:107-113), so the batch fails there and nothing is recorded as sent |
| Coms.Coms.ReceiveStep | src/coms.rs:75-83 | a decoding error fails with nothing changed; otherwise exactly the decoded envelope is added to the received log, an empty batch passes, and a batch holding a RESPONSE fails |
| Coms.Coms.RetryStopped | src/coms.rs:50-53 | after the first failed re-send, the rest are not sent |
| Coms.Coms.RetrySpec | src/coms.rs:50-53 | with an open socket and a lookup that succeeds, every retry is written and recorded, in order; otherwise the first re-send fails and nothing is recorded |
| Coms.Coms.Taken | src/coms.rs:55-62 | the number of notifications taken off the queue never exceeds the queue |
| Coms.Coms.DeliverStopped | src/coms.rs:55-62 | the drain loop takes exactly up to the first failing delivery and stops |
| Coms.Coms.DeliverOneOpen | src/coms.rs:56-60 | one delivery writes and records exactly the rendered message |
| Coms.Coms.DeliverAll | src/coms.rs:55-62 | with an open socket and a lookup that succeeds, the whole queue is delivered in FIFO order and all of it is taken |
| Coms.Coms.PassTakesAll | src/coms.rs:55-62 | a drain that passes has taken every notification |
| Coms.Coms.DeliverAllSends | src/coms.rs:55-62 | an open drain writes and records the rendering of the queue |
| Coms.Coms.DeliverRefused | src/coms.rs:55-62 | otherwise the first notification is taken, its delivery fails, and nothing is recorded as sent |
| Coms.Coms.UpdateSpec | src/coms.rs:47-65 | `update` sends the retries and then the queue in FIFO order, and empties the channel; when it cannot send, it fails and records nothing |
| Coms.Coms.UpdateOpen | src/coms.rs:47-65 | with an open socket and a lookup that succeeds, retries come first and then the rendered queue, and nothing is left queued |
| Coms.Coms.UpdateRefused | src/coms.rs:47-65 | with anything to send and no way to send it, `update` fails having recorded nothing |
| Coms.Coms.NextLocalId | src/coms.rs:242 | each generated id is one past the previous |
| Coms.Coms.SendMsg | src/coms.rs:103-116 | the connection after `send_msg` is the send step |
| Coms.Coms.ReSendUser | src/coms.rs:332-335 | the connection after `re_send_user` is the re-send step |
| Coms.Coms.PostToRouter | src/coms.rs:141-146 | a router post is logged, tagged with the bound user, exactly when the router is open |
| Coms.Coms.HandleSession | src/coms.rs:118-149 | the connection after `handle_session` is the session step |
| Coms.Coms.HandleQuery | src/coms.rs:151-205 | the answer is the query reply under the request's id; nothing changes |
| Coms.Coms.NewChatArm | src/coms.rs:212-235 | the NEW_CHAT arm is the NEW_CHAT step |
| Coms.Coms.MarkMember | src/coms.rs:241-244 | one turn of the member loop is one marking step |
| Coms.Coms.NewMessageArm | src/coms.rs:236-247 | the NEW_MESSAGE arm is the NEW_MESSAGE step |
| Coms.Coms.MessageReadArm | src/coms.rs:248-262 | the MESSAGE_READ arm is the MESSAGE_READ step |
| Coms.Coms.FriendRequestArm | src/coms.rs:263-268 | the FRIEND_REQUEST arm is its step |
| Coms.Coms.FriendAcceptedArm | src/coms.rs:269-281 | the FRIEND_ACCEPTED arm is its step |
| Coms.Coms.NotificationArm | src/coms.rs:211-283 | the store side of a notification is the arm for its kind |
| Coms.Coms.HandleNotification | src/coms.rs:207-293 | the connection after `handle_notification` is the notification step |
| Coms.Coms.RemoveSharedChats | src/coms.rs:301-305 | the chat loop is the chat-removal step |
| Coms.Coms.RemoveFriendArm | src/coms.rs:297-314 | REMOVE_FRIEND is its step |
| Coms.Coms.RefreshFriends | src/coms.rs:321-323 | the friend loop is the refresh step |
| Coms.Coms.UserTagArm | src/coms.rs:315-325 | USER_TAG is its step |
| Coms.Coms.HandleModification | src/coms.rs:295-330 | the connection after `handle_modification` is the modification step |
| Coms.Coms.DispatchMsg | src/coms.rs:88-97 | one envelope's handling, then the send of its answer |
| Coms.Coms.HandleMsg | src/coms.rs:87-101 | the connection after `handle_msg` is the batch run, which stops at the first error |
| Coms.Coms.ReceiveMsg | src/coms.rs:75-83 | the connection after `receive_msg` is the receive step |
| Coms.Coms.RetrySends | src/coms.rs:50-53 | the retry loop is the retry run |
| Coms.Coms.DeliverNotification | src/coms.rs:56-60 | one drained notification is delivered as the delivery step states |
| Coms.Coms.DrainMailbox | src/coms.rs:55-62 | the drain loop is the delivery run; exactly the taken notifications leave the channel |
| Coms.Coms.Update | src/coms.rs:47-65 | the connection after `update` is the update step; the channel keeps what was not taken |
| Coms.Coms.Shutdown | src/coms.rs:67-73 | USER_OFFLINE is posted for the bound user exactly when the router is open; otherwise the send fails |

## Left out

- Concurrency: the tokio tasks, the `Arc<Mutex<..>>` sharing and the interleaving of connections with the routers are not modelled. Each component is modelled on its own, one call at a time.
- The WebSocket sink is the `output` log, and a closed socket is a fixed flag. `CONNECTION_CLOSED` stands for whatever error the sink reports.
- bincode: decoding is a `Result` parameter of `receive_msg`. A failing `serialize` is not modelled.
- The delivery manager (`ComsManager`, in the core library) is not part of this model. Its `received` and `sent` records are logs. What `received_waiting` and `to_retry` return are parameters.
- Store setup, collection handles and `src/mongo_db/mod.rs` are not part of this model.
- The regular-expression semantics of `query_contains_tag` is an uninterpreted matcher. Its invalid-pattern and driver errors are not modelled.
- Driver errors of `insert_notification`, `remove_notification`, `get_user_notifications`, `insert_friend`, `sign_up`'s insert and the queries are not modelled. These operations always succeed here.
- `get_chat`, `get_user_chats` and the writes whose bodies are not in the repository (`new_chat`, `insert_message`, `remove_chat`, `remove_friend`, `change_user_tag`, `insert_non_duplicant_notification`) are oracles: uninterpreted answers and a write log. So `remove_friend` and `change_user_tag` do not change the modelled user records.
- Channel capacities: the capacity of 100 of the notification channels is not modelled, and a channel send fails only when its receiver is gone. The capacity 50 of a broadcast topic is recorded in `Topic`; its back-pressure and lag are not modelled.
- Random UUIDs: a new user's id is chosen past every stored id and every id handed out before, and a notification or message id comes from a counter. Neither is ever the unset id. The 128-bit width is not modelled. Uniqueness of stored notification ids is a precondition of `Coms.Coms.MessageReadClearsMarkers`. `Coms.Coms.NewMessageKeepsUniqueIds` shows that the markers NEW_MESSAGE stores keep the ids unique, provided no stored id is past the connection's counter; the model does not establish that starting condition. In the source, uniqueness rests on random 128-bit ids.
- Branches that are `todo!()` are excluded by preconditions: `Session::TOKEN`, the router's MESSAGE, MESSAGE_READ and NEW_CHAT arms, and the earlier router's MESSAGE and NEW_CHAT arms.
- The modification kinds other than REMOVE_FRIEND and USER_TAG are `todo!()` in the dispatcher. They are absent from the `Modification` datatype.
- `strip_info` belongs to the core library. It is modelled as dropping the credentials. Password validity is a flag.
- The core library's `is_valid()` on a user id is taken to be `is_user_valid`: the id is not the unset id 0.
- Store.SignUpResult: `User::from` on the inserted record is assumed to succeed, so its error path is not modelled. It is modelled as taking the record's id, tag and credentials.
- Store.FullUserSpec: `User::from` on the record and on each friend is assumed to succeed, so its error paths in `login` and `get_full_user` are not modelled.
- Store.GetStripedUser: `User::from` on the found record is assumed to succeed, so its error path is not modelled.
- Store.GetUserNotifications: `Notification::from` on each stored record is assumed to succeed, so a record it would drop is not modelled.
- `server_manager.rs`, `web_socket.rs` and `main.rs` are not part of this model. Logging is not modelled. The routers' `chat_manager` fields are never used by the routers, and are kept only as fields.
- Coms.Coms.MessageReadStep: its own contract states only what the arm may touch. The exact effect needs unique notification ids, so it is stated in `Coms.Coms.MessageReadClearsMarkers`.
- Coms.Coms.NewMessageRefused: states the number of markers and the error, not each marker's fields.
- Coms.Coms.QueryReply: the error for a query kind the server does not answer is the fixed text "Invalid Query! " without the query's debug rendering that the source appends. A `query_contains_tag` that fails is not modelled, so USERS_CONTAINS_TAG always answers with the matches.
