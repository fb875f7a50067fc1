/** The data model shared by the server's components (the types the server takes from its
    companion core library): identities, users, chats, notifications and the wire envelope. */
module Domain {

  /** An identity of a user, chat, message or notification. The unset identity is 0;
      only equality and the comparison with 0 matter to the server, so the 128-bit
      width is not modelled. */
  type Uuid = nat

  /** `UUID::default()`, the unset identity. */
  const DEFAULT_UUID: Uuid := 0

  /** `is_valid()` / `get_value() != 0`: the identity is set. */
  predicate IsValid(id: Uuid) {
    id != DEFAULT_UUID
  }

  datatype Option<T> = None | Some(value: T)

  /** A fallible result whose error is the message the server shows (`StdError`). */
  datatype Result<T> = Success(value: T) | Failure(error: string)

  /** `Result<(), StdError>`. */
  datatype Outcome = Pass | Fail(error: string)

  /** A password as typed by a client; its own validity rule belongs to the core library and
      is carried here as a flag. */
  datatype Password = Password(text: string, valid: bool)

  datatype UserCreationInfo = UserCreationInfo(tag: string, email: string, password: Password)

  /** The private part of a profile, which `strip_info` removes. */
  datatype Credentials = Credentials(email: string, password: string)

  /** A profile as sent to clients, with its friends expanded to profiles. */
  datatype User = User(uuid: Uuid, tag: string, friends: seq<User>, credentials: Option<Credentials>)

  /** A user record as stored: friends are kept as identities. */
  datatype DbUser = DbUser(uuid: Uuid, tag: string, email: string, password: string, friends: seq<Uuid>)

  datatype ChatMessage = ChatMessage(uuid: Uuid, author: Uuid, text: string)

  datatype Chat = Chat(uuid: Uuid, tag: string, users: seq<Uuid>, messages: seq<ChatMessage>)

  datatype NotificationType =
    | NewChat(chat: Chat)
    | NewMessage(chatId: Uuid, message: ChatMessage)
    | MessageRead(chatId: Uuid)
    | FriendRequest(sender: Uuid, receiver: Uuid)
    | FriendAccepted(sender: Uuid, receiver: Uuid)
      /** A persisted "unread message in this chat" marker. */
    | Message(chatId: Uuid)
      /** A signal to re-send a user's own profile to them. */
    | ResendUser(user: Uuid)

  datatype Notification = Notification(uuid: Uuid, kind: NotificationType)

  /** A standing notification as stored, addressed to `user`. */
  datatype DbNotification = DbNotification(uuid: Uuid, user: Uuid, kind: NotificationType)

  datatype Session = Login(info: UserCreationInfo) | SignUp(info: UserCreationInfo) | Token(user: User)

  datatype Query =
    | UsersByTag(tags: seq<string>)
    | UsersContainsTag(tag: string)
    | UsersByUuid(uuids: seq<Uuid>)
    | FriendRequests
    | UserChats
    | ChatMessages(chatId: Uuid)
    | ResultUser(users: seq<User>)
    | ResultFriendRequests(notifications: seq<Notification>)
    | ResultChats(chats: seq<Chat>)
    | ResultChatMessages(messages: seq<ChatMessage>)

  datatype Modification = RemoveFriend(friend: Uuid) | UserTag(user: Uuid, newTag: string)

  datatype Response = OkSession(session: Session) | OkQuery(query: Query) | Ok | Err(message: string)

  datatype ServerMessageContent =
    | SessionContent(session: Session)
    | QueryContent(query: Query)
    | ModificationContent(modification: Modification)
    | NotificationContent(notification: Notification)
    | ResponseContent(response: Response)

  /** The wire envelope: a correlation id and its content. */
  datatype ServerMessage = ServerMessage(uuid: Uuid, content: ServerMessageContent)

  /** The identities of a list of chats, in order. */
  function ChatIds(chats: seq<Chat>): (ids: seq<Uuid>)
    ensures |ids| == |chats|
    ensures forall i :: 0 <= i < |chats| ==> ids[i] == chats[i].uuid
  {
    seq(|chats|, i requires 0 <= i < |chats| => chats[i].uuid)
  }

  /** Concatenation regroups; a stated step for the routers' inbox proofs. */
  lemma AppendAssoc<T>(a: seq<T>, b: seq<T>, c: seq<T>)
    ensures (a + b) + c == a + (b + c)
  {
  }

  /** `User::default()`. */
  function DefaultUser(): User {
    User(DEFAULT_UUID, "", [], None)
  }
}
