/** The per-connection dispatcher (`Coms`): it decodes envelopes, answers sessions, queries,
    notifications and modifications against the store, posts commands to the router, and drains
    its own mailbox to the client.

    Every handler is a method on the live objects and is specified by a step function on a value
    snapshot of the connection and its store (`ComsState`); the properties of each handler are
    stated about those step functions. */
module Coms {
  import opened Domain
  import opened Store
  import Channel
  import NM = NotificationManager

  const RESPONSE_RECEIVED: string := "Message received is a Response!"
  const QUERY_NOT_LOGGED_IN: string := "User is not logged in, Server can't respond to query!"
  const NOTIFICATION_NOT_LOGGED_IN: string := "User is not logged in, Server can't respond to notifications!"
  const USER_INVALID: string := "User is invalid!"
  const NOT_A_MEMBER: string := "User is invalid or is not a member of the chat!"
  /** The fixed start of the error for a query kind the server does not answer; the query's
      debug rendering that follows it is not modelled. */
  const INVALID_QUERY: string := "Invalid Query! "
  /** Stands for the error the WebSocket sink reports once the connection is closed. */
  const CONNECTION_CLOSED: string := "connection closed"

  /** Everything a handler can change: the bound user, the store's collections and id counter,
      the counter behind locally generated ids, the socket (`output`), the delivery manager's
      logs (`sent`, `received`) and the commands posted to the router, tagged with the sender. */
  datatype ComsState = ComsState(
    user: Uuid,
    users: seq<DbUser>,
    notifications: seq<DbNotification>,
    writes: seq<StoreWrite>,
    lastId: nat,
    lastLocalId: nat,
    output: seq<ServerMessage>,
    sent: seq<ServerMessage>,
    received: seq<ServerMessage>,
    posts: seq<(Uuid, NM.Command)>)

  /** A computed value together with the state after computing it. */
  datatype Step<T> = Step(value: T, state: ComsState)

  /** How one arm of `handle_notification` ends: fall through to the router post, return the
      error with `?`, or return early with an error response. */
  datatype ArmResult = Continue | Abort(error: string) | Reply(error: string)

  function TokenMessage(id: Uuid, u: User): ServerMessage {
    ServerMessage(id, SessionContent(Token(u)))
  }

  function OkMessage(id: Uuid): ServerMessage {
    ServerMessage(id, ResponseContent(Ok))
  }

  /** `Session::TOKEN` is `todo!()`: an envelope carrying it is outside what the server handles. */
  predicate Handled(msg: ServerMessage) {
    msg.content.SessionContent? ==> !msg.content.session.Token?
  }

  /** The notification kinds `update` answers with a fresh copy of the user's own profile. */
  predicate Resends(n: Notification) {
    n.kind.ResendUser? || n.kind.FriendAccepted?
  }

  /** What `login` or `sign_up` answers, given the store's users and id counter. */
  function SessionResult(users: seq<DbUser>, lastId: nat, s: Session): Result<User>
    requires !s.Token?
  {
    match s
    case Login(info) => FullUser(users, ByCredentials(info.email, info.password.text))
    case SignUp(info) => SignUpResult(users, info, NextUserId(users, lastId))
  }

  /** The USER_CHATS answer once the chats are fetched. */
  function ChatsAnswer(user: Uuid, chats: seq<Chat>): (r: Response)
    ensures r.OkQuery? <==> IsValid(user)
    ensures r.OkQuery? ==> r.query == ResultChats(chats)
    ensures !r.OkQuery? ==> r == Err(USER_INVALID)
  {
    if IsValid(user) then OkQuery(ResultChats(chats)) else Err(USER_INVALID)
  }

  /** The CHAT_MESSAGES answer once the chat is fetched: its messages for a valid member only. */
  function ChatMessagesAnswer(user: Uuid, chat: Chat): (r: Response)
    ensures r.OkQuery? <==> user in chat.users && IsValid(user)
    ensures r.OkQuery? ==> r.query == ResultChatMessages(chat.messages)
    ensures !r.OkQuery? ==> r == Err(NOT_A_MEMBER)
  {
    if user in chat.users && IsValid(user) then OkQuery(ResultChatMessages(chat.messages))
    else Err(NOT_A_MEMBER)
  }

  /** The members of a chat other than `me`, in listed order (one entry per listed occurrence). */
  function OtherMembers(members: seq<Uuid>, me: Uuid): (r: seq<Uuid>)
    ensures |r| <= |members|
    ensures forall u :: u in r <==> u in members && u != me
  {
    if |members| == 0 then []
    else
      var init := members[..|members| - 1];
      var last := members[|members| - 1];
      assert members == init + [last];
      OtherMembers(init, me) + (if last != me then [last] else [])
  }

  /** `me` is dropped and every other member keeps its number of occurrences. */
  lemma {:induction false} OtherMembersCounts(members: seq<Uuid>, me: Uuid)
    ensures multiset(OtherMembers(members, me))[me] == 0
    ensures forall u :: u != me ==> multiset(OtherMembers(members, me))[u] == multiset(members)[u]
  {
    if |members| > 0 {
      var init := members[..|members| - 1];
      var last := members[|members| - 1];
      assert members == init + [last];
      OtherMembersCounts(init, me);
    }
  }

  /** The MESSAGE(c) markers for `others`, with the consecutive ids generated after `base`. */
  function Markers(others: seq<Uuid>, c: Uuid, base: nat): seq<DbNotification> {
    seq(|others|, k requires 0 <= k < |others| => DbNotification(base + k + 1, others[k], Message(c)))
  }

  function Repeat(w: StoreWrite, n: nat): seq<StoreWrite> {
    seq(n, _ => w)
  }

  /** Two rounds of sending compose into one: the written and recorded messages concatenate and
      the local ids add up. A proof step of the drain loop's lemmas. */
  lemma SendsCompose(st: ComsState, a: seq<ServerMessage>, b: seq<ServerMessage>, n: nat, k: nat)
    ensures st.(output := st.output + a, sent := st.sent + a, lastLocalId := st.lastLocalId + n)
              .(output := st.output + a + b, sent := st.sent + a + b, lastLocalId := st.lastLocalId + n + k)
            == st.(output := st.output + (a + b), sent := st.sent + (a + b), lastLocalId := st.lastLocalId + (n + k))
  {
    AppendAssoc(st.output, a, b);
    AppendAssoc(st.sent, a, b);
  }

  lemma MarkersSnoc(others: seq<Uuid>, u: Uuid, c: Uuid, base: nat)
    ensures Markers(others + [u], c, base) == Markers(others, c, base) + [DbNotification(base + |others| + 1, u, Message(c))]
  {
  }

  lemma RepeatSnoc(w: StoreWrite, n: nat)
    ensures Repeat(w, n + 1) == Repeat(w, n) + [w]
  {
  }

  /** The ids of the MESSAGE(c) markers among some notifications, in order. */
  function ReadMarkers(ns: seq<Notification>, c: Uuid): (ids: seq<Uuid>)
    ensures forall id :: id in ids <==> exists k :: 0 <= k < |ns| && ns[k].kind == Message(c) && ns[k].uuid == id
  {
    if |ns| == 0 then []
    else
      var init := ns[..|ns| - 1];
      var last := ns[|ns| - 1];
      assert forall k :: 0 <= k < |init| ==> init[k] == ns[k];
      ReadMarkers(init, c) + (if last.kind == Message(c) then [last.uuid] else [])
  }

  /** The `remove_chat` writes for the chats that list `f`, in order. */
  function SharedChatRemovals(chats: seq<Chat>, f: Uuid): (ws: seq<StoreWrite>)
    ensures forall w :: w in ws <==> exists k :: 0 <= k < |chats| && f in chats[k].users && w == RemoveChat(chats[k].uuid)
  {
    if |chats| == 0 then []
    else
      var init := chats[..|chats| - 1];
      var last := chats[|chats| - 1];
      assert forall k :: 0 <= k < |init| ==> init[k] == chats[k];
      SharedChatRemovals(init, f) + (if f in last.users then [RemoveChat(last.uuid)] else [])
  }

  /** The REFRESH_USER commands for a user's friends, in friend order. */
  function RefreshCommands(me: Uuid, friends: seq<User>): seq<(Uuid, NM.Command)> {
    seq(|friends|, k requires 0 <= k < |friends| => (me, NM.RefreshUser(friends[k].uuid)))
  }

  /** What `update` writes for a run of drained notifications, given the user's profile: a fresh
      SESSION(TOKEN) for the re-send kinds, the notification itself for every other kind, each
      with the next generated id. */
  function Rendered(ns: seq<Notification>, u: User, base: nat): (r: seq<ServerMessage>)
    ensures |r| == |ns|
  {
    if |ns| == 0 then []
    else Rendered(ns[..|ns| - 1], u, base) + [RenderedOne(ns[|ns| - 1], u, base + |ns|)]
  }

  /** What one drained notification is delivered as, under the given id. */
  function RenderedOne(n: Notification, u: User, id: Uuid): ServerMessage {
    if Resends(n) then TokenMessage(id, u) else ServerMessage(id, NotificationContent(n))
  }

  /** The k-th notification is delivered under the k-th id after `base`, as a fresh profile for
      the re-send kinds and as itself otherwise. */
  lemma {:induction false} RenderedAt(ns: seq<Notification>, u: User, base: nat, k: nat)
    requires k < |ns|
    ensures Rendered(ns, u, base)[k] == RenderedOne(ns[k], u, base + k + 1)
  {
    if k < |ns| - 1 {
      RenderedAt(ns[..|ns| - 1], u, base, k);
    }
  }

  class Coms {
    var userUuid: Uuid
    var lastLocalId: nat
    /** The WebSocket write half, as the log of messages written to it. */
    var output: seq<ServerMessage>
    /** The delivery manager's record of sent and of received messages. */
    var sent: seq<ServerMessage>
    var received: seq<ServerMessage>
    /** The router's command queue, as the log of (sender, command) pairs this connection posted. */
    var routerPosts: seq<(Uuid, NM.Command)>
    /** The connection's own notification channel; the router is handed its sending half. */
    const mailbox: Channel.Mailbox
    const store: MongoDb
    /** Whether the router's queue still accepts commands. */
    const routerOpen: bool
    /** Whether the WebSocket still accepts writes. */
    const socketOpen: bool

    /** `Coms::new`: no user bound yet, a fresh empty mailbox. */
    constructor (store: MongoDb, routerOpen: bool, socketOpen: bool)
      ensures this.store == store && this.routerOpen == routerOpen && this.socketOpen == socketOpen
      ensures userUuid == DEFAULT_UUID && lastLocalId == 0
      ensures output == [] && sent == [] && received == [] && routerPosts == []
      ensures fresh(mailbox) && mailbox.queue == [] && mailbox.receiverAlive
    {
      this.store := store;
      this.routerOpen := routerOpen;
      this.socketOpen := socketOpen;
      userUuid := DEFAULT_UUID;
      lastLocalId := 0;
      output := [];
      sent := [];
      received := [];
      routerPosts := [];
      mailbox := new Channel.Mailbox();
    }

    /** The current state as a value. */
    function Snapshot(): ComsState
      reads this, store
    {
      ComsState(userUuid, store.users, store.notifications, store.writes, store.lastId,
                lastLocalId, output, sent, received, routerPosts)
    }

    // -------------------------------------------------------------------------
    // Step functions
    // -------------------------------------------------------------------------

    /** `send_msg`: refuse a missing message, write it to the socket, look the bound user up, and
        only then record it as sent. */
    function SendStep(st: ComsState, msg: Option<ServerMessage>): (r: Step<Outcome>)
      ensures r.state == st.(output := r.state.output, sent := r.state.sent)
      ensures msg.None? ==> r == Step(Fail(RESPONSE_RECEIVED), st)
      ensures r.state.output == if msg.Some? && socketOpen then st.output + [msg.value] else st.output
      ensures r.value.Pass? <==> msg.Some? && socketOpen && FullUser(st.users, ById(st.user)).Success?
      ensures r.state.sent == if r.value.Pass? then st.sent + [msg.value] else st.sent
    {
      match msg
      case None => Step(Fail(RESPONSE_RECEIVED), st)
      case Some(m) =>
        if !socketOpen then Step(Fail(CONNECTION_CLOSED), st)
        else
          var written := st.(output := st.output + [m]);
          match FullUser(st.users, ById(st.user))
          case Failure(e) => Step(Fail(e), written)
          case Success(_) => Step(Pass, written.(sent := written.sent + [m]))
    }

    /** `re_send_user`: the bound user's full profile as a SESSION(TOKEN) message. The lookup
        inside `send_msg` repeats one that has just succeeded, so a re-sent profile is always
        recorded as sent. */
    function ResendStep(st: ComsState): (r: Step<Outcome>)
      ensures r.state == st.(output := r.state.output, sent := r.state.sent, lastLocalId := r.state.lastLocalId)
      ensures r.value.Pass? <==> socketOpen && FullUser(st.users, ById(st.user)).Success?
      ensures r.value.Pass? ==>
                var m := TokenMessage(st.lastLocalId + 1, FullUser(st.users, ById(st.user)).value);
                r.state.output == st.output + [m] && r.state.sent == st.sent + [m]
      ensures r.value.Fail? ==> r.state.output == st.output && r.state.sent == st.sent
    {
      match FullUser(st.users, ById(st.user))
      case Failure(e) => Step(Fail(e), st)
      case Success(u) =>
        var id := st.lastLocalId + 1;
        SendStep(st.(lastLocalId := id), Some(TokenMessage(id, u)))
    }

    /** A send on the router's queue, tagged with the bound user. */
    function PostStep(st: ComsState, cmd: NM.Command): Step<bool> {
      if routerOpen then Step(true, st.(posts := st.posts + [(st.user, cmd)])) else Step(false, st)
    }

    /** One of the store writes whose bodies are not part of this model. */
    function WriteStep(st: ComsState, w: StoreWrite): Step<Outcome> {
      match store.writeError(w)
      case Some(e) => Step(Fail(e), st)
      case None => Step(Pass, st.(writes := st.writes + [w]))
    }

    /** The chat ids NOTIFY_USER carries: the user's chats, or none when the lookup fails. */
    function LoginChats(user: Uuid): seq<Uuid> {
      match store.userChatsOracle(user)
      case Success(chats) => ChatIds(chats)
      case Failure(_) => []
    }

    /** `handle_session`: on failure an error response and nothing bound; on success the user is
        bound, exactly one NOTIFY_USER is posted (when the router is there to take it), and the
        response carries the user as a token. */
    function SessionStep(st: ComsState, id: Uuid, s: Session): (r: Step<ServerMessage>)
      requires !s.Token?
      ensures r.value.uuid == id
      ensures SessionResult(st.users, st.lastId, s).Failure? ==>
                r == Step(ServerMessage(id, ResponseContent(Err(SessionResult(st.users, st.lastId, s).error))), st)
      ensures SessionResult(st.users, st.lastId, s).Success? ==>
                var u := SessionResult(st.users, st.lastId, s).value;
                && r.value.content == ResponseContent(OkSession(Token(u)))
                && r.state.user == u.uuid
                && r.state.posts == st.posts + (if routerOpen then [(u.uuid, NM.NotifyUser(u.uuid, LoginChats(u.uuid), mailbox))] else [])
                && r.state.notifications == st.notifications && r.state.writes == st.writes
                && r.state.lastLocalId == st.lastLocalId
                && r.state.output == st.output && r.state.sent == st.sent && r.state.received == st.received
      ensures s.Login? ==> r.state.users == st.users && r.state.lastId == st.lastId
      ensures s.SignUp? && SessionResult(st.users, st.lastId, s).Success? ==>
                r.state.users == st.users + [NewDbUser(s.info, NextUserId(st.users, st.lastId))]
                && r.state.lastId == NextUserId(st.users, st.lastId)
    {
      var res := SessionResult(st.users, st.lastId, s);
      match res
      case Failure(e) => Step(ServerMessage(id, ResponseContent(Err(e))), st)
      case Success(u) =>
        var nid := NextUserId(st.users, st.lastId);
        var stored := if s.SignUp? then st.(users := st.users + [NewDbUser(s.info, nid)], lastId := nid) else st;
        var bound := stored.(user := u.uuid);
        Step(ServerMessage(id, ResponseContent(OkSession(Token(u)))),
             PostStep(bound, NM.NotifyUser(u.uuid, LoginChats(u.uuid), mailbox)).state)
    }

    /** `handle_query`: the answer to one query. Nothing in the state changes. */
    function QueryReply(st: ComsState, q: Query): (r: Response)
      ensures !IsValid(st.user) ==> r == Err(QUERY_NOT_LOGGED_IN)
      ensures IsValid(st.user) && q.UsersByTag? ==>
                r == OkQuery(ResultUser(Found(st.users, TagFilters(q.tags))))
                && |r.query.users| <= |q.tags| && forall u :: u in r.query.users ==> Stripped(u)
      ensures IsValid(st.user) && q.UsersByUuid? ==>
                r == OkQuery(ResultUser(Found(st.users, IdFilters(q.uuids))))
                && |r.query.users| <= |q.uuids| && forall u :: u in r.query.users ==> Stripped(u)
      ensures IsValid(st.user) && q.UsersContainsTag? ==>
                r == OkQuery(ResultUser(ContainsTag(st.users, q.tag, store.tagMatches)))
                && forall u :: u in r.query.users ==> Stripped(u)
      ensures IsValid(st.user) && q.FriendRequests? ==>
                r == OkQuery(ResultFriendRequests(GetUserFriendRequests(st.notifications, st.user)))
      ensures IsValid(st.user) && q.UserChats? ==>
                r == match store.userChatsOracle(st.user)
                     case Failure(e) => Err(e)
                     case Success(chats) => OkQuery(ResultChats(chats))
      ensures q.ChatMessages? ==>
                (r.OkQuery? <==> IsValid(st.user) && store.chatOracle(q.chatId).Success?
                                 && st.user in store.chatOracle(q.chatId).value.users)
      ensures q.ChatMessages? && r.OkQuery? ==> r.query == ResultChatMessages(store.chatOracle(q.chatId).value.messages)
      ensures IsValid(st.user) && q.ChatMessages? && store.chatOracle(q.chatId).Failure? ==>
                r == Err(store.chatOracle(q.chatId).error)
      ensures IsValid(st.user) && q.ChatMessages? && store.chatOracle(q.chatId).Success?
              && st.user !in store.chatOracle(q.chatId).value.users ==>
                r == Err(NOT_A_MEMBER)
      ensures (q.UserChats? || q.ChatMessages?) && !r.OkQuery? ==> r.Err?
      ensures IsValid(st.user) && (q.ResultUser? || q.ResultFriendRequests? || q.ResultChats? || q.ResultChatMessages?) ==>
                r == Err(INVALID_QUERY)
    {
      if !IsValid(st.user) then Err(QUERY_NOT_LOGGED_IN)
      else
        match q
        case UsersByTag(tags) =>
          FoundBounded(st.users, TagFilters(tags));
          OkQuery(ResultUser(Found(st.users, TagFilters(tags))))
        case UsersContainsTag(tag) => OkQuery(ResultUser(ContainsTag(st.users, tag, store.tagMatches)))
        case UsersByUuid(ids) =>
          FoundBounded(st.users, IdFilters(ids));
          OkQuery(ResultUser(Found(st.users, IdFilters(ids))))
        case FriendRequests => OkQuery(ResultFriendRequests(GetUserFriendRequests(st.notifications, st.user)))
        case UserChats =>
          (match store.userChatsOracle(st.user)
           case Failure(e) => Err(e)
           case Success(chats) => ChatsAnswer(st.user, chats))
        case ChatMessages(c) =>
          (match store.chatOracle(c)
           case Failure(e) => Err(e)
           case Success(chat) => ChatMessagesAnswer(st.user, chat))
        case _ => Err(INVALID_QUERY)
    }

    /** The NEW_CHAT arm. The friends check builds an iterator that is never driven, so only the
        creator's membership decides whether the chat is written. */
    function NewChatStep(st: ComsState, chat: Chat): (r: Step<ArmResult>)
      ensures r.state == st || r.state == st.(writes := st.writes + [NewChatWrite(chat)])
      ensures IsValid(st.user) && FullUser(st.users, ById(st.user)).Failure? ==>
                r == Step(Abort(FullUser(st.users, ById(st.user)).error), st)
      ensures r.value.Abort? <==> IsValid(st.user) && FullUser(st.users, ById(st.user)).Failure?
      ensures r.state != st <==>
                IsValid(st.user) && FullUser(st.users, ById(st.user)).Success? && st.user in chat.users
                && store.writeError(NewChatWrite(chat)).None?
      ensures r.value.Reply? <==>
                IsValid(st.user) && FullUser(st.users, ById(st.user)).Success? && st.user in chat.users
                && store.writeError(NewChatWrite(chat)).Some?
      ensures r.value.Reply? ==> r.value.error == store.writeError(NewChatWrite(chat)).value
    {
      if !IsValid(st.user) then Step(Continue, st)
      else
        match FullUser(st.users, ById(st.user))
        case Failure(e) => Step(Abort(e), st)
        case Success(_) =>
          if st.user in chat.users then
            var w := WriteStep(st, NewChatWrite(chat));
            if w.value.Fail? then Step(Reply(w.value.error), st) else Step(Continue, w.state)
          else Step(Continue, st)
    }

    /** One turn of the member loop of the NEW_MESSAGE arm: once the loop is still running and
        `u` is not the caller, a MESSAGE(c) marker for `u` with a fresh id, then the message write. */
    function MarkOne(s: Step<ArmResult>, me: Uuid, u: Uuid, c: Uuid, chatUuid: Uuid, m: ChatMessage): Step<ArmResult> {
      if !s.value.Continue? || u == me then s
      else
        var nid := s.state.lastLocalId + 1;
        var marked := s.state.(lastLocalId := nid,
                               notifications := s.state.notifications + [DbNotification(nid, u, Message(c))]);
        var w := WriteStep(marked, InsertMessage(chatUuid, m));
        if w.value.Fail? then Step(Abort(w.value.error), w.state) else Step(Continue, w.state)
    }

    /** The member loop of the NEW_MESSAGE arm, over the listed members in order. */
    function MarkMembers(st: ComsState, members: seq<Uuid>, c: Uuid, chatUuid: Uuid, m: ChatMessage): Step<ArmResult>
    {
      if |members| == 0 then Step(Continue, st)
      else MarkOne(MarkMembers(st, members[..|members| - 1], c, chatUuid, m), st.user, members[|members| - 1], c, chatUuid, m)
    }

    /** When the message write succeeds, the member loop marks every other member once, in
        listed order, with consecutive fresh ids, and writes the message once per marker. */
    lemma {:induction false} MarkMembersWritten(st: ComsState, members: seq<Uuid>, c: Uuid, chatUuid: Uuid, m: ChatMessage)
      requires store.writeError(InsertMessage(chatUuid, m)).None?
      ensures var others := OtherMembers(members, st.user);
              MarkMembers(st, members, c, chatUuid, m)
              == Step(Continue, st.(notifications := st.notifications + Markers(others, c, st.lastLocalId),
                                    writes := st.writes + Repeat(InsertMessage(chatUuid, m), |others|),
                                    lastLocalId := st.lastLocalId + |others|))
    {
      var w := InsertMessage(chatUuid, m);
      if |members| == 0 {
        assert Markers([], c, st.lastLocalId) == [];
        assert Repeat(w, 0) == [];
      } else {
        var init := members[..|members| - 1];
        var u := members[|members| - 1];
        MarkMembersWritten(st, init, c, chatUuid, m);
        var oi := OtherMembers(init, st.user);
        if u != st.user {
          assert OtherMembers(members, st.user) == oi + [u];
          MarkersSnoc(oi, u, c, st.lastLocalId);
          RepeatSnoc(w, |oi|);
          assert st.notifications + Markers(oi + [u], c, st.lastLocalId)
              == st.notifications + Markers(oi, c, st.lastLocalId) + [DbNotification(st.lastLocalId + |oi| + 1, u, Message(c))];
          assert st.writes + Repeat(w, |oi| + 1) == st.writes + Repeat(w, |oi|) + [w];
        } else {
          assert OtherMembers(members, st.user) == oi;
        }
      }
    }

    /** Once a prefix of the member loop has stopped, the rest of the members are not visited. */
    lemma {:induction false} MarkMembersStopped(st: ComsState, members: seq<Uuid>, c: Uuid, chatUuid: Uuid, m: ChatMessage, k: nat)
      requires k <= |members| && !MarkMembers(st, members[..k], c, chatUuid, m).value.Continue?
      ensures MarkMembers(st, members, c, chatUuid, m) == MarkMembers(st, members[..k], c, chatUuid, m)
    {
      if k == |members| {
        assert members[..k] == members;
      } else {
        var init := members[..|members| - 1];
        assert init[..k] == members[..k];
        MarkMembersStopped(st, init, c, chatUuid, m, k);
      }
    }

    /** When the message write fails, the member loop stops at the first other member: one
        marker for that member, and the write's error. */
    lemma {:induction false} MarkMembersRefused(st: ComsState, members: seq<Uuid>, c: Uuid, chatUuid: Uuid, m: ChatMessage)
      requires store.writeError(InsertMessage(chatUuid, m)).Some?
      ensures var others := OtherMembers(members, st.user);
              var r := MarkMembers(st, members, c, chatUuid, m);
              && (others == [] ==> r == Step(Continue, st))
              && (others != [] ==>
                    r == Step(Abort(store.writeError(InsertMessage(chatUuid, m)).value),
                              st.(notifications := st.notifications + [DbNotification(st.lastLocalId + 1, others[0], Message(c))],
                                  lastLocalId := st.lastLocalId + 1)))
    {
      if |members| > 0 {
        var init := members[..|members| - 1];
        MarkMembersRefused(st, init, c, chatUuid, m);
      }
    }

    /** The NEW_MESSAGE arm: a chat that cannot be fetched aborts; a caller who is not a valid
        member changes nothing; otherwise the member loop runs over the fetched chat. */
    function NewMessageStep(st: ComsState, c: Uuid, m: ChatMessage): (r: Step<ArmResult>)
      ensures store.chatOracle(c).Failure? ==> r == Step(Abort(store.chatOracle(c).error), st)
      ensures store.chatOracle(c).Success? && !(IsValid(st.user) && st.user in store.chatOracle(c).value.users) ==>
                r == Step(Continue, st)
      ensures r.state == st.(notifications := r.state.notifications, writes := r.state.writes,
                             lastLocalId := r.state.lastLocalId)
      ensures !r.value.Reply?
    {
      match store.chatOracle(c)
      case Failure(e) => Step(Abort(e), st)
      case Success(chat) =>
        if IsValid(st.user) && st.user in chat.users then
          if store.writeError(InsertMessage(chat.uuid, m)).None? then
            MarkMembersWritten(st, chat.users, c, chat.uuid, m);
            MarkMembers(st, chat.users, c, chat.uuid, m)
          else
            MarkMembersRefused(st, chat.users, c, chat.uuid, m);
            MarkMembers(st, chat.users, c, chat.uuid, m)
        else Step(Continue, st)
    }

    /** One turn of the member loop keeps the stored notification ids unique and at most the
        local id counter: a new marker's id is one past the counter. */
    lemma MarkOneKeepsUniqueIds(s: Step<ArmResult>, me: Uuid, u: Uuid, c: Uuid, chatUuid: Uuid, m: ChatMessage)
      requires UniqueIds(s.state.notifications) && IdsAtMost(s.state.notifications, s.state.lastLocalId)
      ensures UniqueIds(MarkOne(s, me, u, c, chatUuid, m).state.notifications)
      ensures IdsAtMost(MarkOne(s, me, u, c, chatUuid, m).state.notifications, MarkOne(s, me, u, c, chatUuid, m).state.lastLocalId)
    {
      if s.value.Continue? && u != me {
        var ns := s.state.notifications;
        var ns' := ns + [DbNotification(s.state.lastLocalId + 1, u, Message(c))];
        assert forall i :: 0 <= i < |ns| ==> ns'[i] == ns[i];
      }
    }

    /** The member loop keeps the stored notification ids unique and at most the counter. */
    lemma {:induction false} MarkMembersKeepsUniqueIds(st: ComsState, members: seq<Uuid>, c: Uuid, chatUuid: Uuid, m: ChatMessage)
      requires UniqueIds(st.notifications) && IdsAtMost(st.notifications, st.lastLocalId)
      ensures UniqueIds(MarkMembers(st, members, c, chatUuid, m).state.notifications)
      ensures IdsAtMost(MarkMembers(st, members, c, chatUuid, m).state.notifications,
                        MarkMembers(st, members, c, chatUuid, m).state.lastLocalId)
    {
      if |members| > 0 {
        var init := members[..|members| - 1];
        MarkMembersKeepsUniqueIds(st, init, c, chatUuid, m);
        MarkOneKeepsUniqueIds(MarkMembers(st, init, c, chatUuid, m), st.user, members[|members| - 1], c, chatUuid, m);
      }
    }

    /** When no stored notification id is past the local id counter, NEW_MESSAGE keeps the
        stored notification ids unique, and keeps them at most the counter. */
    lemma NewMessageKeepsUniqueIds(st: ComsState, c: Uuid, m: ChatMessage)
      requires UniqueIds(st.notifications) && IdsAtMost(st.notifications, st.lastLocalId)
      ensures UniqueIds(NewMessageStep(st, c, m).state.notifications)
      ensures IdsAtMost(NewMessageStep(st, c, m).state.notifications, NewMessageStep(st, c, m).state.lastLocalId)
    {
      if store.chatOracle(c).Success? {
        var chat := store.chatOracle(c).value;
        MarkMembersKeepsUniqueIds(st, chat.users, c, chat.uuid, m);
      }
    }

    /** NEW_MESSAGE from a valid member, when the message write succeeds: the notifications
        gain exactly one MESSAGE(c) marker per listed occurrence of every other member, in listed
        order, none for the caller, and the message is written once per marker. */
    lemma NewMessageMarksOthers(st: ComsState, c: Uuid, m: ChatMessage)
      requires store.chatOracle(c).Success?
      requires IsValid(st.user) && st.user in store.chatOracle(c).value.users
      requires store.writeError(InsertMessage(store.chatOracle(c).value.uuid, m)).None?
      ensures var chat := store.chatOracle(c).value;
              var others := OtherMembers(chat.users, st.user);
              var r := NewMessageStep(st, c, m);
              && r.value == Continue
              && |r.state.notifications| == |st.notifications| + |others|
              && r.state.notifications[..|st.notifications|] == st.notifications
              && (forall k :: 0 <= k < |others| ==>
                    var d := r.state.notifications[|st.notifications| + k];
                    d.user == others[k] && d.user != st.user && d.kind == Message(c))
              && r.state.writes == st.writes + Repeat(InsertMessage(chat.uuid, m), |others|)
    {
      var chat := store.chatOracle(c).value;
      MarkMembersWritten(st, chat.users, c, chat.uuid, m);
      var others := OtherMembers(chat.users, st.user);
      forall k | 0 <= k < |others| ensures others[k] != st.user {
        assert others[k] in others;
      }
    }

    /** When the message write fails, a member's NEW_MESSAGE stores at most one marker and
        returns the write's error when there is any other member. */
    lemma NewMessageRefused(st: ComsState, c: Uuid, m: ChatMessage)
      requires store.chatOracle(c).Success?
      requires IsValid(st.user) && st.user in store.chatOracle(c).value.users
      requires store.writeError(InsertMessage(store.chatOracle(c).value.uuid, m)).Some?
      ensures var chat := store.chatOracle(c).value;
              var others := OtherMembers(chat.users, st.user);
              var r := NewMessageStep(st, c, m);
              && (r.value.Abort? <==> others != [])
              && |r.state.notifications| <= |st.notifications| + 1
              && r.state.writes == st.writes
    {
      var chat := store.chatOracle(c).value;
      MarkMembersRefused(st, chat.users, c, chat.uuid, m);
    }

    /** One step of the MESSAGE_READ loop: the next notification removes its id when it is a
        MESSAGE(c) marker and nothing otherwise. */
    lemma RemoveMarkersSnoc(n0: seq<DbNotification>, ns: seq<Notification>, c: Uuid, i: nat)
      requires i < |ns|
      ensures RemoveEach(n0, ReadMarkers(ns[..i + 1], c)) ==
        if ns[i].kind == Message(c) then RemoveNotification(RemoveEach(n0, ReadMarkers(ns[..i], c)), ns[i].uuid)
        else RemoveEach(n0, ReadMarkers(ns[..i], c))
    {
      assert ns[..i + 1][..i] == ns[..i];
      var ids := ReadMarkers(ns[..i], c);
      if ns[i].kind == Message(c) {
        assert (ids + [ns[i].uuid])[..|ids|] == ids;
      } else {
        assert ids + [] == ids;
      }
    }

    /** The MESSAGE_READ arm: every MESSAGE(c) marker among the caller's notifications, as read
        once before the loop, is removed by id. */
    function MessageReadStep(st: ComsState, c: Uuid): (r: Step<ArmResult>)
      ensures r.value == Continue
      ensures r.state == st.(notifications := r.state.notifications)
      ensures !IsValid(st.user) ==> r.state == st
    {
      if !IsValid(st.user) then Step(Continue, st)
      else
        var ids := ReadMarkers(GetUserNotifications(st.notifications, st.user), c);
        Step(Continue, st.(notifications := RemoveEach(st.notifications, ids)))
    }

    /** MESSAGE_READ only ever removes stored notifications, whatever their ids. */
    lemma MessageReadOnlyRemoves(st: ComsState, c: Uuid)
      ensures multiset(MessageReadStep(st, c).state.notifications) <= multiset(st.notifications)
    {
      if IsValid(st.user) {
        RemoveEachShrinks(st.notifications, ReadMarkers(GetUserNotifications(st.notifications, st.user), c));
      }
    }

    /** A record's id is among the ids MESSAGE_READ collects exactly when the record is one of
        the user's MESSAGE(c) markers, given unique ids. */
    lemma MarkerIdsOf(ns: seq<DbNotification>, user: Uuid, c: Uuid, d: DbNotification)
      requires UniqueIds(ns) && d in ns
      ensures d.uuid in ReadMarkers(GetUserNotifications(ns, user), c) <==> d.user == user && d.kind == Message(c)
    {
      var mine := GetUserNotifications(ns, user);
      var ids := ReadMarkers(mine, c);
      var i :| 0 <= i < |ns| && ns[i] == d;
      if d.user == user && d.kind == Message(c) {
        assert ToNotification(ns[i]) in mine;
        var k :| 0 <= k < |mine| && mine[k] == ToNotification(ns[i]);
        assert mine[k].kind == Message(c) && mine[k].uuid == d.uuid;
      }
      if d.uuid in ids {
        var k :| 0 <= k < |mine| && mine[k].kind == Message(c) && mine[k].uuid == d.uuid;
        assert mine[k] in mine;
        var j :| 0 <= j < |ns| && ns[j].user == user && mine[k] == ToNotification(ns[j]);
        assert ns[j].uuid == ns[i].uuid;
      }
    }

    /** With unique notification ids, MESSAGE_READ from a valid user removes exactly that user's
        MESSAGE(c) markers and keeps every other notification. */
    lemma MessageReadClearsMarkers(st: ComsState, c: Uuid)
      requires IsValid(st.user) && UniqueIds(st.notifications)
      ensures forall d :: d in MessageReadStep(st, c).state.notifications <==>
                d in st.notifications && !(d.user == st.user && d.kind == Message(c))
    {
      var ns := st.notifications;
      var ids := ReadMarkers(GetUserNotifications(ns, st.user), c);
      RemoveEachUnique(ns, ids);
      forall d | d in ns {
        MarkerIdsOf(ns, st.user, c, d);
      }
    }

    /** The FRIEND_REQUEST arm: only the sender's own request is stored, for the receiver. */
    function FriendRequestStep(st: ComsState, n: Notification, sender: Uuid, receiver: Uuid): (r: Step<ArmResult>)
      ensures st.user != sender ==> r == Step(Continue, st)
      ensures st.user == sender ==>
                var w := InsertNonDuplicantNotification(receiver, n);
                if store.writeError(w).Some? then r == Step(Abort(store.writeError(w).value), st)
                else r == Step(Continue, st.(writes := st.writes + [w]))
    {
      if st.user == sender then
        var w := WriteStep(st, InsertNonDuplicantNotification(receiver, n));
        if w.value.Fail? then Step(Abort(w.value.error), w.state) else Step(Continue, w.state)
      else Step(Continue, st)
    }

    /** The FRIEND_ACCEPTED arm: only the caller named as sender changes the store; it removes
        the notification, links both users to each other and re-sends its own profile. */
    function FriendAcceptedStep(st: ComsState, n: Notification, sender: Uuid, receiver: Uuid): (r: Step<ArmResult>)
      ensures st.user != sender ==> r == Step(Continue, st)
      ensures st.user == sender ==>
                && r.state.users == AddFriend(AddFriend(st.users, sender, receiver), receiver, sender)
                && r.state.notifications == RemoveNotification(st.notifications, n.uuid)
                && r.state.writes == st.writes
                && (r.value.Continue? <==> socketOpen && FullUser(r.state.users, ById(sender)).Success?)
      ensures r.state.user == st.user && r.state.posts == st.posts && r.state.lastId == st.lastId
              && r.state.received == st.received
      ensures !r.value.Reply?
    {
      if st.user != sender then Step(Continue, st)
      else
        var linked := st.(notifications := RemoveNotification(st.notifications, n.uuid),
                          users := AddFriend(AddFriend(st.users, st.user, receiver), receiver, st.user));
        var rs := ResendStep(linked);
        if rs.value.Fail? then Step(Abort(rs.value.error), rs.state) else Step(Continue, rs.state)
    }

    /** After an accepted friend request, each of the two users lists the other as a friend. */
    lemma FriendAcceptedLinks(st: ComsState, n: Notification, sender: Uuid, receiver: Uuid)
      requires st.user == sender && HasUser(st.users, sender) && HasUser(st.users, receiver)
      ensures var us := FriendAcceptedStep(st, n, sender, receiver).state.users;
              && GetDbUser(us, ById(sender)).Success? && receiver in GetDbUser(us, ById(sender)).value.friends
              && GetDbUser(us, ById(receiver)).Success? && sender in GetDbUser(us, ById(receiver)).value.friends
    {
      var users := st.users;
      var ks := FirstMatch(users, ById(sender));
      var kr := FirstMatch(users, ById(receiver));
      var js :| 0 <= js < |users| && users[js].uuid == sender;
      assert Matches(users[js], ById(sender));
      var jr :| 0 <= jr < |users| && users[jr].uuid == receiver;
      assert Matches(users[jr], ById(receiver));
      assert ks < |users| && kr < |users|;
      var u1 := AddFriend(users, sender, receiver);
      FirstMatchByIdKept(users, ks, users[ks].(friends := AddToSet(users[ks].friends, receiver)), sender);
      FirstMatchByIdKept(users, ks, users[ks].(friends := AddToSet(users[ks].friends, receiver)), receiver);
      assert FirstMatch(u1, ById(receiver)) == kr && FirstMatch(u1, ById(sender)) == ks;
      var u2 := AddFriend(u1, receiver, sender);
      FirstMatchByIdKept(u1, kr, u1[kr].(friends := AddToSet(u1[kr].friends, sender)), sender);
      FirstMatchByIdKept(u1, kr, u1[kr].(friends := AddToSet(u1[kr].friends, sender)), receiver);
      assert FirstMatch(u2, ById(receiver)) == kr && FirstMatch(u2, ById(sender)) == ks;
      assert receiver in u1[ks].friends;
      assert receiver in u2[ks].friends;
      assert sender in u2[kr].friends;
    }

    /** The store side of `handle_notification`, by kind; kinds without an arm change nothing. */
    function ArmStep(st: ComsState, n: Notification): (r: Step<ArmResult>)
      ensures r.state.user == st.user && r.state.posts == st.posts && r.state.lastId == st.lastId
              && r.state.received == st.received
    {
      match n.kind
      case NewChat(chat) => NewChatStep(st, chat)
      case NewMessage(c, m) => NewMessageStep(st, c, m)
      case MessageRead(c) => MessageReadStep(st, c)
      case FriendRequest(s, rcv) => FriendRequestStep(st, n, s, rcv)
      case FriendAccepted(s, rcv) => FriendAcceptedStep(st, n, s, rcv)
      case Message(_) => Step(Continue, st)
      case ResendUser(_) => Step(Continue, st)
    }

    /** `handle_notification`: refused before anything else while no user is bound; otherwise,
        whenever its arm falls through, the notification is posted to the router as
        CLIENT_MESSAGE and answered OK under the request's id. */
    function NotificationStep(st: ComsState, id: Uuid, n: Notification): (r: Step<Result<ServerMessage>>)
      ensures !IsValid(st.user) ==> r == Step(Failure(NOTIFICATION_NOT_LOGGED_IN), st)
      ensures r.value.Success? ==> r.value.value.uuid == id && r.value.value.content.ResponseContent?
      ensures r.value == Success(OkMessage(id)) <==> IsValid(st.user) && ArmStep(st, n).value.Continue?
      ensures IsValid(st.user) && ArmStep(st, n).value.Continue? ==>
                r.state == ArmStep(st, n).state.(posts := st.posts + (if routerOpen then [(st.user, NM.ClientMessage(n))] else []))
      ensures IsValid(st.user) && !ArmStep(st, n).value.Continue? ==> r.state == ArmStep(st, n).state
      ensures r.state.user == st.user
    {
      if !IsValid(st.user) then Step(Failure(NOTIFICATION_NOT_LOGGED_IN), st)
      else
        var arm := ArmStep(st, n);
        match arm.value
        case Abort(e) => Step(Failure(e), arm.state)
        case Reply(e) => Step(Success(ServerMessage(id, ResponseContent(Err(e)))), arm.state)
        case Continue => Step(Success(OkMessage(id)), PostStep(arm.state, NM.ClientMessage(n)).state)
    }

    /** The chat loop of REMOVE_FRIEND: a `remove_chat` for each chat that lists the friend,
        stopping at the first failure. */
    function RemoveChats(st: ComsState, chats: seq<Chat>, f: Uuid): Step<Outcome>
    {
      if |chats| == 0 then Step(Pass, st)
      else
        var prev := RemoveChats(st, chats[..|chats| - 1], f);
        var chat := chats[|chats| - 1];
        if prev.value.Fail? || f !in chat.users then prev
        else WriteStep(prev.state, RemoveChat(chat.uuid))
    }

    /** The chat loop only writes; it passes exactly when no removal it attempts fails, and then
        it has removed exactly the chats the friend is in, in order. */
    lemma {:induction false} RemoveChatsSpec(st: ComsState, chats: seq<Chat>, f: Uuid)
      ensures var r := RemoveChats(st, chats, f);
              && r.state == st.(writes := r.state.writes)
              && (r.value.Pass? <==>
                    forall k :: 0 <= k < |chats| && f in chats[k].users ==> store.writeError(RemoveChat(chats[k].uuid)).None?)
              && (r.value.Pass? ==> r.state.writes == st.writes + SharedChatRemovals(chats, f))
    {
      if |chats| > 0 {
        var init := chats[..|chats| - 1];
        RemoveChatsSpec(st, init, f);
        assert forall k :: 0 <= k < |init| ==> init[k] == chats[k];
      }
    }

    /** Once a prefix of the chat loop has failed, the rest of the chats are not visited. */
    lemma {:induction false} RemoveChatsStopped(st: ComsState, chats: seq<Chat>, f: Uuid, k: nat)
      requires k <= |chats| && RemoveChats(st, chats[..k], f).value.Fail?
      ensures RemoveChats(st, chats, f) == RemoveChats(st, chats[..k], f)
    {
      if k == |chats| {
        assert chats[..k] == chats;
      } else {
        var init := chats[..|chats| - 1];
        assert init[..k] == chats[..k];
        RemoveChatsStopped(st, init, f, k);
      }
    }

    /** REMOVE_FRIEND: for a valid caller, both unfriend writes, the shared chats' removals, a
        profile re-send and a RESEND_USER notice for the former friend, stopping at the first
        failure. */
    function RemoveFriendStep(st: ComsState, f: Uuid): Step<Outcome>
    {
      if !IsValid(st.user) then Step(Pass, st)
      else
        var w1 := WriteStep(st, RemoveFriendWrite(st.user, f));
        if w1.value.Fail? then w1
        else
          var w2 := WriteStep(w1.state, RemoveFriendWrite(f, st.user));
          if w2.value.Fail? then w2
          else
            match store.userChatsOracle(st.user)
            case Failure(e) => Step(Fail(e), w2.state)
            case Success(chats) =>
              var rc := RemoveChats(w2.state, chats, f);
              if rc.value.Fail? then rc
              else
                var rs := ResendStep(rc.state);
                if rs.value.Fail? then rs
                else
                  var nid := rs.state.lastLocalId + 1;
                  Step(Pass, PostStep(rs.state.(lastLocalId := nid), NM.ClientMessage(Notification(nid, ResendUser(f)))).state)
    }

    /** REMOVE_FRIEND does nothing for an invalid caller, and otherwise leaves the profiles, the
        stored notifications, the id counter and the received messages alone. */
    lemma RemoveFriendKeeps(st: ComsState, f: Uuid)
      ensures !IsValid(st.user) ==> RemoveFriendStep(st, f) == Step(Pass, st)
      ensures var r := RemoveFriendStep(st, f);
              && r.state.user == st.user && r.state.users == st.users && r.state.notifications == st.notifications
              && r.state.lastId == st.lastId && r.state.received == st.received
    {
      if IsValid(st.user) && store.userChatsOracle(st.user).Success? {
        var w1 := WriteStep(st, RemoveFriendWrite(st.user, f));
        var w2 := WriteStep(w1.state, RemoveFriendWrite(f, st.user));
        RemoveChatsSpec(w2.state, store.userChatsOracle(st.user).value, f);
      }
    }

    /** When REMOVE_FRIEND passes, it has written both unfriendings and the shared chats'
        removals, re-sent the caller's profile, and posted a RESEND_USER for the former friend
        once the router is open. */
    lemma RemoveFriendPasses(st: ComsState, f: Uuid)
      requires IsValid(st.user) && RemoveFriendStep(st, f).value.Pass?
      ensures var r := RemoveFriendStep(st, f);
              && store.userChatsOracle(st.user).Success?
              && r.state.writes == st.writes + [RemoveFriendWrite(st.user, f), RemoveFriendWrite(f, st.user)]
                                   + SharedChatRemovals(store.userChatsOracle(st.user).value, f)
              && r.state.posts == st.posts
                                  + (if routerOpen then [(st.user, NM.ClientMessage(Notification(r.state.lastLocalId, ResendUser(f))))] else [])
              && FullUser(st.users, ById(st.user)).Success?
              && r.state.sent == st.sent + [TokenMessage(st.lastLocalId + 1, FullUser(st.users, ById(st.user)).value)]
    {
      var w1 := WriteStep(st, RemoveFriendWrite(st.user, f));
      var w2 := WriteStep(w1.state, RemoveFriendWrite(f, st.user));
      assert w1.value.Pass? && w2.value.Pass? && store.userChatsOracle(st.user).Success?;
      var chats := store.userChatsOracle(st.user).value;
      assert w2.state == st.(writes := st.writes + [RemoveFriendWrite(st.user, f), RemoveFriendWrite(f, st.user)]);
      RemoveChatsSpec(w2.state, chats, f);
      var rc := RemoveChats(w2.state, chats, f);
      assert rc.value.Pass?;
      var rs := ResendStep(rc.state);
      assert rs.value.Pass?;
      var nid := rs.state.lastLocalId + 1;
      assert RemoveFriendStep(st, f)
          == Step(Pass, PostStep(rs.state.(lastLocalId := nid), NM.ClientMessage(Notification(nid, ResendUser(f)))).state);
    }

    /** The friend loop of USER_TAG: one REFRESH_USER per friend, `?` on a closed router. */
    function Refreshes(st: ComsState, friends: seq<User>): Step<Outcome>
    {
      if |friends| == 0 then Step(Pass, st)
      else
        var prev := Refreshes(st, friends[..|friends| - 1]);
        if prev.value.Fail? then prev
        else
          var p := PostStep(prev.state, NM.RefreshUser(friends[|friends| - 1].uuid));
          if p.value then Step(Pass, p.state) else Step(Fail(Channel.CHANNEL_CLOSED), p.state)
    }

    /** With the router up, every friend gets a REFRESH_USER, in friend order; with it down,
        nothing is posted and the loop fails as soon as there is a friend. */
    lemma {:induction false} RefreshesSpec(st: ComsState, friends: seq<User>)
      ensures routerOpen ==> Refreshes(st, friends) == Step(Pass, st.(posts := st.posts + RefreshCommands(st.user, friends)))
      ensures !routerOpen ==> Refreshes(st, friends).state == st
                              && (Refreshes(st, friends).value.Pass? <==> friends == [])
    {
      if |friends| > 0 {
        var init := friends[..|friends| - 1];
        RefreshesSpec(st, init);
        if routerOpen {
          var a := RefreshCommands(st.user, friends);
          var b := RefreshCommands(st.user, init) + [(st.user, NM.RefreshUser(friends[|friends| - 1].uuid))];
          assert |a| == |b|;
          forall k | 0 <= k < |a| ensures a[k] == b[k] {
            if k < |init| { assert init[k] == friends[k]; }
          }
        }
      } else {
        assert RefreshCommands(st.user, friends) == [];
      }
    }

    /** Once a prefix of the friend loop has failed, the rest of the friends are not visited. */
    lemma {:induction false} RefreshesStopped(st: ComsState, friends: seq<User>, k: nat)
      requires k <= |friends| && Refreshes(st, friends[..k]).value.Fail?
      ensures Refreshes(st, friends) == Refreshes(st, friends[..k])
    {
      if k == |friends| {
        assert friends[..k] == friends;
      } else {
        var init := friends[..|friends| - 1];
        assert init[..k] == friends[..k];
        RefreshesStopped(st, init, k);
      }
    }

    /** USER_TAG: only the caller's own tag; the tag write, a profile lookup, a re-send and the
        friends' refreshes, stopping at the first failure. */
    function UserTagStep(st: ComsState, u: Uuid, tag: string): (r: Step<Outcome>)
      ensures st.user != u ==> r == Step(Pass, st)
      ensures r.state.user == st.user && r.state.users == st.users && r.state.notifications == st.notifications
              && r.state.lastId == st.lastId && r.state.received == st.received
      ensures r.value.Pass? && st.user == u ==>
                && FullUser(st.users, ById(u)).Success?
                && r.state.writes == st.writes + [ChangeUserTag(u, tag)]
                && r.state.posts == st.posts + RefreshCommands(u, FullUser(st.users, ById(u)).value.friends)
    {
      if st.user != u then Step(Pass, st)
      else
        var w := WriteStep(st, ChangeUserTag(u, tag));
        if w.value.Fail? then w
        else
          match FullUser(w.state.users, ById(u))
          case Failure(e) => Step(Fail(e), w.state)
          case Success(user) =>
            var rs := ResendStep(w.state);
            if rs.value.Fail? then rs
            else
              RefreshesSpec(rs.state, user.friends);
              Refreshes(rs.state, user.friends)
    }

    /** USER_TAG has no login check: on a connection with no user bound, a USER_TAG naming the
        unset id still issues the tag write for that id. */
    lemma UnboundUserTagWrites(st: ComsState, tag: string)
      requires !IsValid(st.user) && store.writeError(ChangeUserTag(DEFAULT_UUID, tag)).None?
      ensures UserTagStep(st, DEFAULT_UUID, tag).state.writes == st.writes + [ChangeUserTag(DEFAULT_UUID, tag)]
    {
      var w := WriteStep(st, ChangeUserTag(DEFAULT_UUID, tag));
      if FullUser(w.state.users, ById(DEFAULT_UUID)).Success? {
        var rs := ResendStep(w.state);
        if rs.value.Pass? {
          RefreshesSpec(rs.state, FullUser(w.state.users, ById(DEFAULT_UUID)).value.friends);
        }
      }
    }

    /** `handle_modification`: the modification's steps, then OK under the request's id. */
    function ModificationStep(st: ComsState, id: Uuid, m: Modification): (r: Step<Result<ServerMessage>>)
      ensures r.value.Success? ==> r.value.value == OkMessage(id)
      ensures m.RemoveFriend? && !IsValid(st.user) ==> r == Step(Success(OkMessage(id)), st)
      ensures m.UserTag? && m.user != st.user ==> r == Step(Success(OkMessage(id)), st)
      ensures r.state.user == st.user
    {
      var o := match m
               case RemoveFriend(f) => (RemoveFriendKeeps(st, f); RemoveFriendStep(st, f))
               case UserTag(u, tag) => UserTagStep(st, u, tag);
      match o.value
      case Fail(e) => Step(Failure(e), o.state)
      case Pass => Step(Success(OkMessage(id)), o.state)
    }

    /** A handler's answer sent back: a handler error is returned as is (`?`). */
    function SendAnswer(h: Step<Result<ServerMessage>>): Step<Outcome> {
      match h.value
      case Failure(e) => Step(Fail(e), h.state)
      case Success(resp) => SendStep(h.state, Some(resp))
    }

    /** One iteration of `handle_msg`: the envelope's handler, then `send_msg` of its answer.
        A RESPONSE envelope has no answer (`None`), which `send_msg` rejects. */
    function Dispatch(st: ComsState, msg: ServerMessage): Step<Outcome>
      requires Handled(msg)
    {
      match msg.content
      case SessionContent(s) =>
        var h := SessionStep(st, msg.uuid, s);
        SendStep(h.state, Some(h.value))
      case QueryContent(q) => SendStep(st, Some(ServerMessage(msg.uuid, ResponseContent(QueryReply(st, q)))))
      case NotificationContent(n) => SendAnswer(NotificationStep(st, msg.uuid, n))
      case ModificationContent(m) => SendAnswer(ModificationStep(st, msg.uuid, m))
      case ResponseContent(_) => SendStep(st, None)
    }

    /** `handle_msg`: the envelopes in order, stopping at the first error. */
    function Batch(st: ComsState, msgs: seq<ServerMessage>): Step<Outcome>
      requires forall i :: 0 <= i < |msgs| ==> Handled(msgs[i])
    {
      if |msgs| == 0 then Step(Pass, st)
      else
        var prev := Batch(st, msgs[..|msgs| - 1]);
        if prev.value.Fail? then prev else Dispatch(prev.state, msgs[|msgs| - 1])
    }

    /** Once a prefix of the batch fails, the rest of the batch is not processed. */
    lemma {:induction false} BatchStopped(st: ComsState, msgs: seq<ServerMessage>, k: nat)
      requires forall i :: 0 <= i < |msgs| ==> Handled(msgs[i])
      requires k <= |msgs| && Batch(st, msgs[..k]).value.Fail?
      ensures Batch(st, msgs) == Batch(st, msgs[..k])
    {
      if k == |msgs| {
        assert msgs[..k] == msgs;
      } else {
        var init := msgs[..|msgs| - 1];
        assert init[..k] == msgs[..k];
        BatchStopped(st, init, k);
      }
    }

    /** An inbound RESPONSE is never answered: the batch fails, and its final state is the state
        reached before that envelope, so neither it nor anything after it has any effect. */
    lemma ResponseEndsBatch(st: ComsState, msgs: seq<ServerMessage>, j: nat)
      requires forall i :: 0 <= i < |msgs| ==> Handled(msgs[i])
      requires j < |msgs| && msgs[j].content.ResponseContent?
      ensures Batch(st, msgs).value.Fail?
      ensures Batch(st, msgs).state == Batch(st, msgs[..j]).state
    {
      assert msgs[..j + 1][..j] == msgs[..j];
      BatchStopped(st, msgs, j + 1);
    }

    /** No handler touches the received log. */
    lemma DispatchKeepsReceived(st: ComsState, msg: ServerMessage)
      requires Handled(msg)
      ensures Dispatch(st, msg).state.received == st.received
    {
      if msg.content.ModificationContent? && msg.content.modification.RemoveFriend? {
        RemoveFriendKeeps(st, msg.content.modification.friend);
      }
    }

    lemma {:induction false} BatchKeepsReceived(st: ComsState, msgs: seq<ServerMessage>)
      requires forall i :: 0 <= i < |msgs| ==> Handled(msgs[i])
      ensures Batch(st, msgs).state.received == st.received
    {
      if |msgs| > 0 {
        var init := msgs[..|msgs| - 1];
        BatchKeepsReceived(st, init);
        DispatchKeepsReceived(Batch(st, init).state, msgs[|msgs| - 1]);
      }
    }

    /** On a connection with no user bound (and no record under the unset id), the answer to a
        failed login cannot be sent: `send_msg` looks up the unset user, fails, and so the batch
        stops there with nothing recorded as sent. */
    lemma FailedLoginEndsBatch(st: ComsState, msgs: seq<ServerMessage>, j: nat)
      requires forall i :: 0 <= i < |msgs| ==> Handled(msgs[i])
      requires !IsValid(st.user) && !HasUser(st.users, DEFAULT_UUID)
      requires j < |msgs| && Batch(st, msgs[..j]) == Step(Pass, st)
      requires msgs[j].content.SessionContent? && msgs[j].content.session.Login?
      requires SessionResult(st.users, st.lastId, msgs[j].content.session).Failure?
      ensures Batch(st, msgs).value.Fail? && Batch(st, msgs).state.sent == st.sent
    {
      assert GetDbUser(st.users, ById(st.user)).Failure?;
      assert msgs[..j + 1][..j] == msgs[..j];
      BatchStopped(st, msgs, j + 1);
    }

    /** `receive_msg`: a message that fails to decode is returned as the error and changes
        nothing; otherwise exactly that envelope is added to the received log, and the waiting
        batch is handled, failing when it holds an inbound RESPONSE. */
    function ReceiveStep(st: ComsState, decoded: Result<ServerMessage>, waiting: seq<ServerMessage>): (r: Step<Outcome>)
      requires forall i :: 0 <= i < |waiting| ==> Handled(waiting[i])
      ensures decoded.Failure? ==> r == Step(Fail(decoded.error), st)
      ensures decoded.Success? ==> r.state.received == st.received + [decoded.value]
      ensures decoded.Success? && waiting == [] ==> r == Step(Pass, st.(received := st.received + [decoded.value]))
      ensures decoded.Success? && (exists j :: 0 <= j < |waiting| && waiting[j].content.ResponseContent?) ==>
                r.value.Fail?
    {
      match decoded
      case Failure(e) => Step(Fail(e), st)
      case Success(m) =>
        var st1 := st.(received := st.received + [m]);
        BatchKeepsReceived(st1, waiting);
        if exists j :: 0 <= j < |waiting| && waiting[j].content.ResponseContent? then
          var j :| 0 <= j < |waiting| && waiting[j].content.ResponseContent?;
          ResponseEndsBatch(st1, waiting, j);
          Batch(st1, waiting)
        else Batch(st1, waiting)
    }

    /** The retry loop of `update`: each message the delivery manager hands back, re-sent. */
    function RetryAll(st: ComsState, retry: seq<ServerMessage>): Step<Outcome>
    {
      if |retry| == 0 then Step(Pass, st)
      else
        var prev := RetryAll(st, retry[..|retry| - 1]);
        if prev.value.Fail? then prev else SendStep(prev.state, Some(retry[|retry| - 1]))
    }

    lemma {:induction false} RetryStopped(st: ComsState, retry: seq<ServerMessage>, k: nat)
      requires k <= |retry| && RetryAll(st, retry[..k]).value.Fail?
      ensures RetryAll(st, retry) == RetryAll(st, retry[..k])
    {
      if k == |retry| {
        assert retry[..k] == retry;
      } else {
        var init := retry[..|retry| - 1];
        assert init[..k] == retry[..k];
        RetryStopped(st, init, k);
      }
    }

    /** Re-sending succeeds exactly when the socket is open and the bound user can be looked up
        (or there is nothing to re-send); it then writes and records every message in order, and
        otherwise records none. */
    lemma {:induction false} RetrySpec(st: ComsState, retry: seq<ServerMessage>)
      ensures var ok := socketOpen && FullUser(st.users, ById(st.user)).Success?;
              var r := RetryAll(st, retry);
              && ((ok || retry == []) ==> r == Step(Pass, st.(output := st.output + retry, sent := st.sent + retry)))
              && ((!ok && retry != []) ==> r.value.Fail? && r.state == st.(output := r.state.output))
    {
      if |retry| > 0 {
        var init := retry[..|retry| - 1];
        RetrySpec(st, init);
        assert init + [retry[|retry| - 1]] == retry;
      }
    }

    /** One drained notification: a re-send of the profile, or the notification forwarded under
        a fresh id. */
    function DeliverOne(st: ComsState, n: Notification): Step<Outcome> {
      if Resends(n) then ResendStep(st)
      else
        var id := st.lastLocalId + 1;
        SendStep(st.(lastLocalId := id), Some(ServerMessage(id, NotificationContent(n))))
    }

    /** The mailbox loop of `update`, over the notifications taken, stopping at the first error. */
    function Deliver(st: ComsState, ns: seq<Notification>): Step<Outcome>
    {
      if |ns| == 0 then Step(Pass, st)
      else
        var prev := Deliver(st, ns[..|ns| - 1]);
        if prev.value.Fail? then prev else DeliverOne(prev.state, ns[|ns| - 1])
    }

    /** How many notifications the mailbox loop takes off the queue: all of them, or up to and
        including the one whose delivery fails. */
    function Taken(st: ComsState, ns: seq<Notification>): (k: nat)
      ensures k <= |ns|
    {
      if |ns| == 0 then 0
      else if Deliver(st, ns[..|ns| - 1]).value.Fail? then Taken(st, ns[..|ns| - 1])
      else |ns|
    }

    lemma {:induction false} DeliverStopped(st: ComsState, ns: seq<Notification>, k: nat)
      requires k < |ns| && Deliver(st, ns[..k]).value.Pass? && Deliver(st, ns[..k + 1]).value.Fail?
      ensures Taken(st, ns) == k + 1 && Deliver(st, ns) == Deliver(st, ns[..k + 1])
    {
      if k + 1 == |ns| {
        assert ns[..k + 1] == ns;
        assert ns[..|ns| - 1] == ns[..k];
      } else {
        var init := ns[..|ns| - 1];
        assert init[..k] == ns[..k] && init[..k + 1] == ns[..k + 1];
        DeliverStopped(st, init, k);
      }
    }

    /** With an open socket and a user that can be looked up, one delivery writes and records
        exactly the message the notification is rendered as. */
    lemma DeliverOneOpen(st: ComsState, n: Notification)
      requires socketOpen && FullUser(st.users, ById(st.user)).Success?
      ensures var m := RenderedOne(n, FullUser(st.users, ById(st.user)).value, st.lastLocalId + 1);
              DeliverOne(st, n) == Step(Pass, st.(output := st.output + [m], sent := st.sent + [m],
                                                  lastLocalId := st.lastLocalId + 1))
    {
    }

    /** With an open socket and a user that can be looked up, draining delivers the whole queue
        in order: one message per notification, each written and recorded. */
    lemma {:induction false} DeliverAll(st: ComsState, ns: seq<Notification>)
      requires socketOpen && FullUser(st.users, ById(st.user)).Success?
      ensures var u := FullUser(st.users, ById(st.user)).value;
              && Deliver(st, ns) == Step(Pass, st.(output := st.output + Rendered(ns, u, st.lastLocalId),
                                                   sent := st.sent + Rendered(ns, u, st.lastLocalId),
                                                   lastLocalId := st.lastLocalId + |ns|))
              && Taken(st, ns) == |ns|
    {
      var u := FullUser(st.users, ById(st.user)).value;
      DeliverAllSends(st, ns);
      PassTakesAll(st, ns);
    }

    /** A delivery run that passes has taken every notification. */
    lemma PassTakesAll(st: ComsState, ns: seq<Notification>)
      requires Deliver(st, ns).value.Pass?
      ensures Taken(st, ns) == |ns|
    {
    }

    lemma {:induction false} DeliverAllSends(st: ComsState, ns: seq<Notification>)
      requires socketOpen && FullUser(st.users, ById(st.user)).Success?
      ensures var u := FullUser(st.users, ById(st.user)).value;
              Deliver(st, ns) == Step(Pass, st.(output := st.output + Rendered(ns, u, st.lastLocalId),
                                                sent := st.sent + Rendered(ns, u, st.lastLocalId),
                                                lastLocalId := st.lastLocalId + |ns|))
    {
      var u := FullUser(st.users, ById(st.user)).value;
      if |ns| == 0 {
        assert Rendered(ns, u, st.lastLocalId) == [];
      } else {
        var init := ns[..|ns| - 1];
        var n := ns[|ns| - 1];
        DeliverAllSends(st, init);
        var ri := Rendered(init, u, st.lastLocalId);
        var s1 := st.(output := st.output + ri, sent := st.sent + ri, lastLocalId := st.lastLocalId + |init|);
        assert Deliver(st, ns) == DeliverOne(s1, n);
        DeliverOneOpen(s1, n);
        var m := RenderedOne(n, u, st.lastLocalId + |ns|);
        assert Rendered(ns, u, st.lastLocalId) == ri + [m];
        SendsCompose(st, ri, [m], |init|, 1);
      }
    }

    /** Otherwise the first notification is taken off the queue, its delivery fails, and nothing
        is recorded as sent. */
    lemma DeliverRefused(st: ComsState, ns: seq<Notification>)
      requires !(socketOpen && FullUser(st.users, ById(st.user)).Success?) && ns != []
      ensures Deliver(st, ns).value.Fail? && Taken(st, ns) == 1 && Deliver(st, ns).state.sent == st.sent
    {
      assert ns[..0] == [];
      assert ns[..1][..0] == [];
      DeliverStopped(st, ns, 0);
    }

    /** `update`: the retries, then the mailbox. */
    function UpdateStep(st: ComsState, retry: seq<ServerMessage>, queue: seq<Notification>): Step<Outcome> {
      var rt := RetryAll(st, retry);
      if rt.value.Fail? then rt else Deliver(rt.state, queue)
    }

    /** What is left in the mailbox after `update`. */
    function Remaining(st: ComsState, retry: seq<ServerMessage>, queue: seq<Notification>): seq<Notification> {
      var rt := RetryAll(st, retry);
      if rt.value.Fail? then queue else queue[Taken(rt.state, queue)..]
    }

    /** With an open socket and a user that can be looked up, `update` writes and records the
        retries and then one message per queued notification in FIFO order, and empties the
        mailbox; otherwise it fails (when there was anything to send) having recorded nothing. */
    lemma UpdateSpec(st: ComsState, retry: seq<ServerMessage>, queue: seq<Notification>)
      ensures var u := FullUser(st.users, ById(st.user));
              var r := UpdateStep(st, retry, queue);
              && ((socketOpen && u.Success?) ==>
                    && r == Step(Pass, st.(output := st.output + retry + Rendered(queue, u.value, st.lastLocalId),
                                           sent := st.sent + retry + Rendered(queue, u.value, st.lastLocalId),
                                           lastLocalId := st.lastLocalId + |queue|))
                    && Remaining(st, retry, queue) == [])
              && ((!(socketOpen && u.Success?) && (retry != [] || queue != [])) ==>
                    r.value.Fail? && r.state.sent == st.sent)
    {
      if socketOpen && FullUser(st.users, ById(st.user)).Success? {
        UpdateOpen(st, retry, queue);
      } else if retry != [] || queue != [] {
        UpdateRefused(st, retry, queue);
      }
    }

    lemma UpdateOpen(st: ComsState, retry: seq<ServerMessage>, queue: seq<Notification>)
      requires socketOpen && FullUser(st.users, ById(st.user)).Success?
      ensures var u := FullUser(st.users, ById(st.user)).value;
              && UpdateStep(st, retry, queue)
                 == Step(Pass, st.(output := st.output + retry + Rendered(queue, u, st.lastLocalId),
                                   sent := st.sent + retry + Rendered(queue, u, st.lastLocalId),
                                   lastLocalId := st.lastLocalId + |queue|))
              && Remaining(st, retry, queue) == []
    {
      RetrySpec(st, retry);
      var s1 := st.(output := st.output + retry, sent := st.sent + retry);
      assert RetryAll(st, retry) == Step(Pass, s1);
      DeliverAll(s1, queue);
      assert UpdateStep(st, retry, queue) == Deliver(s1, queue);
      assert Remaining(st, retry, queue) == queue[Taken(s1, queue)..];
    }

    lemma UpdateRefused(st: ComsState, retry: seq<ServerMessage>, queue: seq<Notification>)
      requires !(socketOpen && FullUser(st.users, ById(st.user)).Success?) && (retry != [] || queue != [])
      ensures UpdateStep(st, retry, queue).value.Fail? && UpdateStep(st, retry, queue).state.sent == st.sent
    {
      RetrySpec(st, retry);
      if retry == [] {
        assert RetryAll(st, retry) == Step(Pass, st);
        DeliverRefused(st, queue);
      }
    }

    // -------------------------------------------------------------------------
    // Handlers
    // -------------------------------------------------------------------------

    /** The id `ServerMessage::from` and `Notification::new` generate. */
    method NextLocalId() returns (id: Uuid)
      modifies this`lastLocalId
      ensures id == old(lastLocalId) + 1 && lastLocalId == id
    {
      lastLocalId := lastLocalId + 1;
      id := lastLocalId;
    }

    method SendMsg(msg: Option<ServerMessage>) returns (r: Outcome)
      modifies this`output, this`sent
      ensures Step(r, Snapshot()) == SendStep(old(Snapshot()), msg)
    {
      if msg.None? {
        return Fail(RESPONSE_RECEIVED);
      }
      if !socketOpen {
        return Fail(CONNECTION_CLOSED);
      }
      output := output + [msg.value];
      var current := store.GetFullUser(userUuid);
      if current.Failure? {
        return Fail(current.error);
      }
      sent := sent + [msg.value];
      r := Pass;
    }

    method ReSendUser() returns (r: Outcome)
      modifies this`output, this`sent, this`lastLocalId
      ensures Step(r, Snapshot()) == ResendStep(old(Snapshot()))
    {
      var user := store.GetFullUser(userUuid);
      if user.Failure? {
        return Fail(user.error);
      }
      var id := NextLocalId();
      r := SendMsg(Some(TokenMessage(id, user.value)));
    }

    method PostToRouter(cmd: NM.Command) returns (ok: bool)
      modifies this`routerPosts
      ensures Step(ok, Snapshot()) == PostStep(old(Snapshot()), cmd)
    {
      if routerOpen {
        routerPosts := routerPosts + [(userUuid, cmd)];
        ok := true;
      } else {
        ok := false;
      }
    }

    method HandleSession(id: Uuid, s: Session) returns (resp: ServerMessage)
      requires !s.Token?
      modifies this`userUuid, this`routerPosts, store`users, store`lastId
      ensures Step(resp, Snapshot()) == SessionStep(old(Snapshot()), id, s)
    {
      var res: Result<User>;
      if s.Login? {
        res := store.Login(s.info);
      } else {
        res := store.SignUp(s.info);
      }
      if res.Failure? {
        return ServerMessage(id, ResponseContent(Err(res.error)));
      }
      userUuid := res.value.uuid;
      var _ := PostToRouter(NM.NotifyUser(userUuid, LoginChats(userUuid), mailbox));
      resp := ServerMessage(id, ResponseContent(OkSession(Token(res.value))));
    }

    method HandleQuery(id: Uuid, q: Query) returns (resp: ServerMessage)
      ensures resp == ServerMessage(id, ResponseContent(QueryReply(Snapshot(), q)))
    {
      if !IsValid(userUuid) {
        return ServerMessage(id, ResponseContent(Err(QUERY_NOT_LOGGED_IN)));
      }
      var answer: Response;
      match q {
        case UsersByTag(tags) =>
          var users := store.QueryByTag(tags);
          answer := OkQuery(ResultUser(users));
        case UsersContainsTag(tag) =>
          answer := OkQuery(ResultUser(ContainsTag(store.users, tag, store.tagMatches)));
        case UsersByUuid(ids) =>
          var users := store.QueryByUuid(ids);
          answer := OkQuery(ResultUser(users));
        case FriendRequests =>
          answer := OkQuery(ResultFriendRequests(GetUserFriendRequests(store.notifications, userUuid)));
        case UserChats =>
          match store.userChatsOracle(userUuid) {
            case Failure(e) => answer := Err(e);
            case Success(chats) => answer := ChatsAnswer(userUuid, chats);
          }
        case ChatMessages(c) =>
          match store.chatOracle(c) {
            case Failure(e) => answer := Err(e);
            case Success(chat) => answer := ChatMessagesAnswer(userUuid, chat);
          }
        case _ =>
          answer := Err(INVALID_QUERY);
      }
      resp := ServerMessage(id, ResponseContent(answer));
    }

    method NewChatArm(chat: Chat) returns (a: ArmResult)
      modifies store`writes
      ensures Step(a, Snapshot()) == NewChatStep(old(Snapshot()), chat)
    {
      if !IsValid(userUuid) {
        return Continue;
      }
      var user := store.GetFullUser(userUuid);
      if user.Failure? {
        return Abort(user.error);
      }
      if userUuid in chat.users {
        var o := store.Write(NewChatWrite(chat));
        if o.Fail? {
          return Reply(o.error);
        }
      }
      a := Continue;
    }

    /** One turn of the member loop of the NEW_MESSAGE arm. */
    method MarkMember(u: Uuid, c: Uuid, chatUuid: Uuid, m: ChatMessage) returns (a: ArmResult)
      modifies this`lastLocalId, store`notifications, store`writes
      ensures Step(a, Snapshot()) == MarkOne(Step(Continue, old(Snapshot())), userUuid, u, c, chatUuid, m)
    {
      a := Continue;
      if u != userUuid {
        ghost var before := Snapshot();
        var nid := NextLocalId();
        store.InsertNotification(u, Notification(nid, Message(c)));
        assert Snapshot() == before.(lastLocalId := nid,
                                     notifications := before.notifications + [DbNotification(nid, u, Message(c))]);
        var o := store.Write(InsertMessage(chatUuid, m));
        if o.Fail? {
          a := Abort(o.error);
        }
      }
    }

    method NewMessageArm(c: Uuid, m: ChatMessage) returns (a: ArmResult)
      modifies this`lastLocalId, store`notifications, store`writes
      ensures Step(a, Snapshot()) == NewMessageStep(old(Snapshot()), c, m)
    {
      if store.chatOracle(c).Failure? {
        return Abort(store.chatOracle(c).error);
      }
      var chat := store.chatOracle(c).value;
      if !(IsValid(userUuid) && userUuid in chat.users) {
        return Continue;
      }
      ghost var st0 := Snapshot();
      assert NewMessageStep(st0, c, m) == MarkMembers(st0, chat.users, c, chat.uuid, m);
      var i := 0;
      while i < |chat.users|
        invariant 0 <= i <= |chat.users|
        invariant MarkMembers(st0, chat.users[..i], c, chat.uuid, m) == Step(Continue, Snapshot())
      {
        assert chat.users[..i + 1][..i] == chat.users[..i];
        a := MarkMember(chat.users[i], c, chat.uuid, m);
        if !a.Continue? {
          MarkMembersStopped(st0, chat.users, c, chat.uuid, m, i + 1);
          return;
        }
        i := i + 1;
      }
      assert chat.users[..i] == chat.users;
      a := Continue;
    }

    method MessageReadArm(c: Uuid) returns (a: ArmResult)
      modifies store`notifications
      ensures Step(a, Snapshot()) == MessageReadStep(old(Snapshot()), c)
    {
      if !IsValid(userUuid) {
        return Continue;
      }
      var ns := GetUserNotifications(store.notifications, userUuid);
      ghost var st0 := Snapshot();
      ghost var n0 := store.notifications;
      var i := 0;
      while i < |ns|
        invariant 0 <= i <= |ns|
        invariant store.notifications == RemoveEach(n0, ReadMarkers(ns[..i], c))
        invariant Snapshot() == st0.(notifications := store.notifications)
      {
        RemoveMarkersSnoc(n0, ns, c, i);
        if ns[i].kind == Message(c) {
          store.RemoveNotificationById(ns[i].uuid);
        }
        i := i + 1;
      }
      assert ns[..i] == ns;
      assert MessageReadStep(st0, c) == Step(Continue, st0.(notifications := RemoveEach(n0, ReadMarkers(ns, c))));
      a := Continue;
    }

    method FriendRequestArm(n: Notification, sender: Uuid, receiver: Uuid) returns (a: ArmResult)
      modifies store`writes
      ensures Step(a, Snapshot()) == FriendRequestStep(old(Snapshot()), n, sender, receiver)
    {
      if userUuid == sender {
        var o := store.Write(InsertNonDuplicantNotification(receiver, n));
        if o.Fail? {
          return Abort(o.error);
        }
      }
      a := Continue;
    }

    method FriendAcceptedArm(n: Notification, sender: Uuid, receiver: Uuid) returns (a: ArmResult)
      modifies this`output, this`sent, this`lastLocalId, store`notifications, store`users
      ensures Step(a, Snapshot()) == FriendAcceptedStep(old(Snapshot()), n, sender, receiver)
    {
      if userUuid != sender {
        return Continue;
      }
      store.RemoveNotificationById(n.uuid);
      store.InsertFriend(userUuid, receiver);
      store.InsertFriend(receiver, userUuid);
      var o := ReSendUser();
      if o.Fail? {
        return Abort(o.error);
      }
      a := Continue;
    }

    /** The store side of `handle_notification`: the arm for the notification's kind. */
    method NotificationArm(n: Notification) returns (a: ArmResult)
      modifies this, store
      ensures Step(a, Snapshot()) == ArmStep(old(Snapshot()), n)
    {
      ghost var st0 := Snapshot();
      match n.kind {
        case NewChat(chat) =>
          a := NewChatArm(chat);
          assert Step(a, Snapshot()) == NewChatStep(st0, chat) == ArmStep(st0, n);
        case NewMessage(c, m) =>
          a := NewMessageArm(c, m);
          assert Step(a, Snapshot()) == NewMessageStep(st0, c, m) == ArmStep(st0, n);
        case MessageRead(c) =>
          a := MessageReadArm(c);
          assert Step(a, Snapshot()) == MessageReadStep(st0, c) == ArmStep(st0, n);
        case FriendRequest(s, rcv) =>
          a := FriendRequestArm(n, s, rcv);
          assert Step(a, Snapshot()) == FriendRequestStep(st0, n, s, rcv) == ArmStep(st0, n);
        case FriendAccepted(s, rcv) =>
          a := FriendAcceptedArm(n, s, rcv);
          assert Step(a, Snapshot()) == FriendAcceptedStep(st0, n, s, rcv) == ArmStep(st0, n);
        case Message(_) => a := Continue;
        case ResendUser(_) => a := Continue;
      }
    }

    method HandleNotification(id: Uuid, n: Notification) returns (r: Result<ServerMessage>)
      modifies this, store
      ensures Step(r, Snapshot()) == NotificationStep(old(Snapshot()), id, n)
    {
      if !IsValid(userUuid) {
        return Failure(NOTIFICATION_NOT_LOGGED_IN);
      }
      var a := NotificationArm(n);
      match a {
        case Abort(e) => r := Failure(e);
        case Reply(e) => r := Success(ServerMessage(id, ResponseContent(Err(e))));
        case Continue =>
          var _ := PostToRouter(NM.ClientMessage(n));
          r := Success(OkMessage(id));
      }
    }

    method RemoveSharedChats(chats: seq<Chat>, f: Uuid) returns (o: Outcome)
      modifies store`writes
      ensures Step(o, Snapshot()) == RemoveChats(old(Snapshot()), chats, f)
    {
      ghost var st0 := Snapshot();
      var i := 0;
      while i < |chats|
        invariant 0 <= i <= |chats|
        invariant RemoveChats(st0, chats[..i], f) == Step(Pass, Snapshot())
      {
        assert chats[..i + 1][..i] == chats[..i];
        if f in chats[i].users {
          o := store.Write(RemoveChat(chats[i].uuid));
          if o.Fail? {
            RemoveChatsStopped(st0, chats, f, i + 1);
            return;
          }
        }
        i := i + 1;
      }
      assert chats[..i] == chats;
      o := Pass;
    }

    method RemoveFriendArm(f: Uuid) returns (o: Outcome)
      modifies this, store
      ensures Step(o, Snapshot()) == RemoveFriendStep(old(Snapshot()), f)
    {
      if !IsValid(userUuid) {
        return Pass;
      }
      o := store.Write(RemoveFriendWrite(userUuid, f));
      if o.Fail? {
        return;
      }
      o := store.Write(RemoveFriendWrite(f, userUuid));
      if o.Fail? {
        return;
      }
      if store.userChatsOracle(userUuid).Failure? {
        return Fail(store.userChatsOracle(userUuid).error);
      }
      o := RemoveSharedChats(store.userChatsOracle(userUuid).value, f);
      if o.Fail? {
        return;
      }
      o := ReSendUser();
      if o.Fail? {
        return;
      }
      var nid := NextLocalId();
      var _ := PostToRouter(NM.ClientMessage(Notification(nid, ResendUser(f))));
      o := Pass;
    }

    method RefreshFriends(friends: seq<User>) returns (o: Outcome)
      modifies this`routerPosts
      ensures Step(o, Snapshot()) == Refreshes(old(Snapshot()), friends)
    {
      ghost var st0 := Snapshot();
      var i := 0;
      while i < |friends|
        invariant 0 <= i <= |friends|
        invariant Refreshes(st0, friends[..i]) == Step(Pass, Snapshot())
      {
        assert friends[..i + 1][..i] == friends[..i];
        var ok := PostToRouter(NM.RefreshUser(friends[i].uuid));
        if !ok {
          RefreshesStopped(st0, friends, i + 1);
          return Fail(Channel.CHANNEL_CLOSED);
        }
        i := i + 1;
      }
      assert friends[..i] == friends;
      o := Pass;
    }

    method UserTagArm(u: Uuid, tag: string) returns (o: Outcome)
      modifies this, store
      ensures Step(o, Snapshot()) == UserTagStep(old(Snapshot()), u, tag)
    {
      if userUuid != u {
        return Pass;
      }
      o := store.Write(ChangeUserTag(u, tag));
      if o.Fail? {
        return;
      }
      var user := store.GetFullUser(u);
      if user.Failure? {
        return Fail(user.error);
      }
      o := ReSendUser();
      if o.Fail? {
        return;
      }
      o := RefreshFriends(user.value.friends);
    }

    method HandleModification(id: Uuid, m: Modification) returns (r: Result<ServerMessage>)
      modifies this, store
      ensures Step(r, Snapshot()) == ModificationStep(old(Snapshot()), id, m)
    {
      var o: Outcome;
      match m {
        case RemoveFriend(f) => o := RemoveFriendArm(f);
        case UserTag(u, tag) => o := UserTagArm(u, tag);
      }
      if o.Fail? {
        return Failure(o.error);
      }
      r := Success(OkMessage(id));
    }

    /** One iteration of `handle_msg`: the envelope's handler, then `send_msg` of its answer. */
    method DispatchMsg(msg: ServerMessage) returns (o: Outcome)
      requires Handled(msg)
      modifies this, store
      ensures Step(o, Snapshot()) == Dispatch(old(Snapshot()), msg)
    {
      match msg.content {
        case SessionContent(s) =>
          var resp := HandleSession(msg.uuid, s);
          o := SendMsg(Some(resp));
        case QueryContent(q) =>
          var resp := HandleQuery(msg.uuid, q);
          o := SendMsg(Some(resp));
        case NotificationContent(n) =>
          var h := HandleNotification(msg.uuid, n);
          if h.Failure? {
            o := Fail(h.error);
          } else {
            o := SendMsg(Some(h.value));
          }
        case ModificationContent(m) =>
          var h := HandleModification(msg.uuid, m);
          if h.Failure? {
            o := Fail(h.error);
          } else {
            o := SendMsg(Some(h.value));
          }
        case ResponseContent(_) =>
          o := SendMsg(None);
      }
    }

    method HandleMsg(msgs: seq<ServerMessage>) returns (o: Outcome)
      requires forall i :: 0 <= i < |msgs| ==> Handled(msgs[i])
      modifies this, store
      ensures Step(o, Snapshot()) == Batch(old(Snapshot()), msgs)
    {
      ghost var st0 := Snapshot();
      var i := 0;
      while i < |msgs|
        invariant 0 <= i <= |msgs|
        invariant Batch(st0, msgs[..i]) == Step(Pass, Snapshot())
      {
        assert msgs[..i + 1][..i] == msgs[..i];
        ghost var before := Snapshot();
        assert Batch(st0, msgs[..i + 1]) == Dispatch(before, msgs[i]);
        o := DispatchMsg(msgs[i]);
        assert Batch(st0, msgs[..i + 1]) == Step(o, Snapshot());
        if o.Fail? {
          BatchStopped(st0, msgs, i + 1);
          return;
        }
        i := i + 1;
      }
      assert msgs[..i] == msgs;
      o := Pass;
    }

    /** `receive_msg`, with the decoded envelope and the batch the delivery manager releases
        after recording it given as parameters. */
    method ReceiveMsg(decoded: Result<ServerMessage>, waiting: seq<ServerMessage>) returns (o: Outcome)
      requires forall i :: 0 <= i < |waiting| ==> Handled(waiting[i])
      modifies this, store
      ensures Step(o, Snapshot()) == ReceiveStep(old(Snapshot()), decoded, waiting)
    {
      if decoded.Failure? {
        return Fail(decoded.error);
      }
      received := received + [decoded.value];
      o := HandleMsg(waiting);
    }

    /** The retry loop of `update`. */
    method RetrySends(retry: seq<ServerMessage>) returns (o: Outcome)
      modifies this`output, this`sent
      ensures Step(o, Snapshot()) == RetryAll(old(Snapshot()), retry)
    {
      ghost var st0 := Snapshot();
      var i := 0;
      while i < |retry|
        invariant 0 <= i <= |retry|
        invariant RetryAll(st0, retry[..i]) == Step(Pass, Snapshot())
      {
        assert retry[..i + 1][..i] == retry[..i];
        o := SendMsg(Some(retry[i]));
        if o.Fail? {
          RetryStopped(st0, retry, i + 1);
          return;
        }
        i := i + 1;
      }
      assert retry[..i] == retry;
      o := Pass;
    }

    /** One notification taken from the mailbox, delivered to the client. */
    method DeliverNotification(n: Notification) returns (o: Outcome)
      modifies this`output, this`sent, this`lastLocalId
      ensures Step(o, Snapshot()) == DeliverOne(old(Snapshot()), n)
    {
      if Resends(n) {
        o := ReSendUser();
      } else {
        var id := NextLocalId();
        o := SendMsg(Some(ServerMessage(id, NotificationContent(n))));
      }
    }

    /** The mailbox loop of `update`: take and deliver until the mailbox is empty or a delivery
        fails. */
    method DrainMailbox() returns (o: Outcome)
      modifies this`output, this`sent, this`lastLocalId, mailbox`queue
      ensures Step(o, Snapshot()) == Deliver(old(Snapshot()), old(mailbox.queue))
      ensures mailbox.queue == old(mailbox.queue)[Taken(old(Snapshot()), old(mailbox.queue))..]
    {
      ghost var st0 := Snapshot();
      ghost var q0 := mailbox.queue;
      ghost var k := 0;
      while true
        invariant 0 <= k <= |q0|
        invariant mailbox.queue == q0[k..]
        invariant Deliver(st0, q0[..k]) == Step(Pass, Snapshot())
        decreases |mailbox.queue|
      {
        var next := mailbox.TryRecv();
        if next.None? {
          break;
        }
        assert q0[..k + 1][..k] == q0[..k];
        o := DeliverNotification(next.value);
        k := k + 1;
        if o.Fail? {
          DeliverStopped(st0, q0, k - 1);
          return;
        }
      }
      assert q0[..k] == q0;
      o := Pass;
    }

    /** `update`, with the messages the delivery manager hands back for re-sending given as a
        parameter: the retries, then the mailbox. */
    method Update(retry: seq<ServerMessage>) returns (o: Outcome)
      modifies this`output, this`sent, this`lastLocalId, mailbox`queue
      ensures Step(o, Snapshot()) == UpdateStep(old(Snapshot()), retry, old(mailbox.queue))
      ensures mailbox.queue == Remaining(old(Snapshot()), retry, old(mailbox.queue))
    {
      o := RetrySends(retry);
      if o.Fail? {
        return;
      }
      o := DrainMailbox();
    }

    /** `shutdown`: tell the router this connection's user is offline. */
    method Shutdown() returns (o: Outcome)
      modifies this`routerPosts
      ensures routerOpen ==> o == Pass && routerPosts == old(routerPosts) + [(userUuid, NM.UserOffline)]
      ensures !routerOpen ==> o == Fail(Channel.CHANNEL_CLOSED) && routerPosts == old(routerPosts)
    {
      var ok := PostToRouter(NM.UserOffline);
      o := if ok then Pass else Fail(Channel.CHANNEL_CLOSED);
    }
  }
}
