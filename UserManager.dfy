/** The earlier router (`UserManager`): a directory from user id to the shared per-connection
    state (`ServerUser`), filled by NOTIFY_USER and used to forward friend requests. */
module UserManager {
  import D = Domain
  import ChatManager

  /** The notification enum this router was written against (a plain enum, no id of its own). */
  datatype LegacyNotification =
    | Message(chatId: D.Uuid, message: D.ChatMessage)
    | NewChat(chat: D.Chat)
    | FriendRequest(sender: D.Uuid, receiver: D.Uuid)

  datatype UserManagerMessage =
    | NotifyUser(user: D.Uuid, serverUser: ServerUser)
    | ClientMessage(notification: LegacyNotification)

  /** The state one connection shares with the router. `inbox` is its notification channel (the
      sending and the receiving half both live here, so a send on it cannot fail). */
  class ServerUser {
    var user: D.User
    var inbox: seq<LegacyNotification>
    var chatReceivers: seq<ChatManager.Subscription>

    /** `ServerUser::new`: the default user, an empty channel and no chat receivers. */
    constructor ()
      ensures user == D.DefaultUser() && inbox == [] && chatReceivers == []
    {
      user := D.DefaultUser();
      inbox := [];
      chatReceivers := [];
    }
  }

  type Directory = map<D.Uuid, ServerUser>

  /** The MESSAGE and NEW_CHAT arms are `todo!()`. */
  predicate Handled(msg: UserManagerMessage) {
    msg.ClientMessage? ==> msg.notification.FriendRequest?
  }

  function NextDirectory(dir: Directory, msg: UserManagerMessage): (r: Directory)
    ensures dir.Keys <= r.Keys
    ensures msg.NotifyUser? ==>
              r.Keys == dir.Keys + {msg.user} && r[msg.user] == msg.serverUser
              && forall u :: u in dir && u != msg.user ==> r[u] == dir[u]
    ensures msg.ClientMessage? ==> r == dir
  {
    match msg
    case NotifyUser(u, su) => dir[u := su]
    case ClientMessage(_) => dir
  }

  /** The receiver's shared state, when a friend request's receiver is online. */
  function Target(dir: Directory, msg: UserManagerMessage): (t: D.Option<ServerUser>)
    ensures t.Some? <==> msg.ClientMessage? && msg.notification.FriendRequest? && msg.notification.receiver in dir
    ensures t.Some? ==> t.value == dir[msg.notification.receiver]
  {
    if msg.ClientMessage? && msg.notification.FriendRequest? && msg.notification.receiver in dir then
      D.Some(dir[msg.notification.receiver])
    else D.None
  }

  function TargetSet(dir: Directory, msg: UserManagerMessage): set<ServerUser> {
    match Target(dir, msg)
    case Some(su) => {su}
    case None => {}
  }

  /** What a friend request is forwarded as: the same sender, the receiver replaced by the unset id. */
  function Forwarded(n: LegacyNotification): LegacyNotification
    requires n.FriendRequest?
  {
    FriendRequest(n.sender, D.DEFAULT_UUID)
  }

  /** The directory after a run of messages, taken in order. */
  function DirectoryAfter(dir: Directory, msgs: seq<UserManagerMessage>): Directory
    decreases |msgs|
  {
    if |msgs| == 0 then dir
    else DirectoryAfter(NextDirectory(dir, msgs[0]), msgs[1..])
  }

  /** What one message pushes into one user's channel. */
  function Pushed(dir: Directory, msg: UserManagerMessage, su: ServerUser): seq<LegacyNotification> {
    if Target(dir, msg) == D.Some(su) then [Forwarded(msg.notification)] else []
  }

  /** What a run of messages pushes into one user's channel, in order. */
  function Deliveries(dir: Directory, msgs: seq<UserManagerMessage>, su: ServerUser): seq<LegacyNotification>
    decreases |msgs|
  {
    if |msgs| == 0 then []
    else Pushed(dir, msgs[0], su) + Deliveries(NextDirectory(dir, msgs[0]), msgs[1..], su)
  }

  /** The channels a run can reach: those online before it and those it registers. */
  function Reachable(dir: Directory, msgs: seq<UserManagerMessage>): set<ServerUser> {
    dir.Values + set i | 0 <= i < |msgs| && msgs[i].NotifyUser? :: msgs[i].serverUser
  }

  /** No message removes a user: every id online before a run, and every id the run registers,
      is online after it. */
  lemma {:induction false} DirectoryOnlyGrows(dir: Directory, msgs: seq<UserManagerMessage>)
    ensures dir.Keys <= DirectoryAfter(dir, msgs).Keys
    ensures forall i :: 0 <= i < |msgs| && msgs[i].NotifyUser? ==> msgs[i].user in DirectoryAfter(dir, msgs)
    decreases |msgs|
  {
    if |msgs| > 0 {
      var rest := msgs[1..];
      DirectoryOnlyGrows(NextDirectory(dir, msgs[0]), rest);
      forall i | 1 <= i < |msgs| && msgs[i].NotifyUser? ensures msgs[i].user in DirectoryAfter(dir, msgs) {
        assert rest[i - 1] == msgs[i];
      }
    }
  }

  /** Every forwarded request names the unset id as its receiver, and names as sender the sender
      of a request that was posted. */
  lemma {:induction false} ForwardedHideReceiver(dir: Directory, msgs: seq<UserManagerMessage>, su: ServerUser)
    ensures forall n :: n in Deliveries(dir, msgs, su) ==>
              n.FriendRequest? && n.receiver == D.DEFAULT_UUID
              && exists i :: 0 <= i < |msgs| && msgs[i].ClientMessage? && msgs[i].notification.FriendRequest?
                             && msgs[i].notification.sender == n.sender
    decreases |msgs|
  {
    if |msgs| > 0 {
      var rest := msgs[1..];
      ForwardedHideReceiver(NextDirectory(dir, msgs[0]), rest, su);
      forall n | n in Deliveries(NextDirectory(dir, msgs[0]), rest, su)
        ensures exists i :: 0 <= i < |msgs| && msgs[i].ClientMessage? && msgs[i].notification.FriendRequest?
                            && msgs[i].notification.sender == n.sender
      {
        var i :| 0 <= i < |rest| && rest[i].ClientMessage? && rest[i].notification.FriendRequest?
                 && rest[i].notification.sender == n.sender;
        assert msgs[i + 1] == rest[i];
      }
    }
  }

  /** After the first message, what the rest of the run can reach is no more than the whole run could. */
  lemma ReachableTail(dir: Directory, msgs: seq<UserManagerMessage>)
    requires |msgs| > 0
    ensures Reachable(NextDirectory(dir, msgs[0]), msgs[1..]) <= Reachable(dir, msgs)
  {
    var rest := msgs[1..];
    forall su | su in Reachable(NextDirectory(dir, msgs[0]), rest) ensures su in Reachable(dir, msgs) {
      if su in NextDirectory(dir, msgs[0]).Values {
        var u :| u in NextDirectory(dir, msgs[0]) && NextDirectory(dir, msgs[0])[u] == su;
        if !(msgs[0].NotifyUser? && u == msgs[0].user) {
          assert u in dir && dir[u] == su;
        }
      } else {
        var i :| 0 <= i < |rest| && rest[i].NotifyUser? && rest[i].serverUser == su;
        assert msgs[i + 1] == rest[i];
      }
    }
  }

  /** Everyone online after a run was online before it or registered by it. */
  lemma {:induction false} DirectoryAfterWithin(dir: Directory, msgs: seq<UserManagerMessage>)
    ensures DirectoryAfter(dir, msgs).Values <= Reachable(dir, msgs)
    decreases |msgs|
  {
    if |msgs| > 0 {
      DirectoryAfterWithin(NextDirectory(dir, msgs[0]), msgs[1..]);
      ReachableTail(dir, msgs);
    }
  }

  class UserManager {
    var users: Directory
    /** Declared by the router and not yet used by it. */
    const chatManager: ChatManager.ChatManager

    /** `UserManager::new`: no one online, an empty topic registry. */
    constructor ()
      ensures users == map[]
      ensures fresh(chatManager) && chatManager.chats == map[]
    {
      users := map[];
      chatManager := new ChatManager.ChatManager();
    }

    /** One iteration of the command loop: register (insert or replace), or forward a friend
        request to an online receiver with the receiver id replaced by the unset id. The send's
        result is discarded. */
    method Process(msg: UserManagerMessage)
      requires Handled(msg)
      modifies this`users, TargetSet(users, msg)`inbox
      ensures users == NextDirectory(old(users), msg)
      ensures match Target(old(users), msg)
              case Some(su) => su.inbox == old(su.inbox) + Pushed(old(users), msg, su)
              case None => true
    {
      match msg
      case NotifyUser(u, su) =>
        users := users[u := su];
      case ClientMessage(n) =>
        if n.receiver in users {
          var su := users[n.receiver];
          su.inbox := su.inbox + [FriendRequest(n.sender, D.DEFAULT_UUID)];
        }
    }

    /** `while let Ok(msg) = receiver.try_recv()`: the queued messages in order. */
    method Drain(msgs: seq<UserManagerMessage>)
      requires forall i :: 0 <= i < |msgs| ==> Handled(msgs[i])
      modifies this`users, Reachable(users, msgs)`inbox
      ensures users == DirectoryAfter(old(users), msgs)
      ensures forall su :: su in Reachable(old(users), msgs) ==> su.inbox == old(su.inbox) + Deliveries(old(users), msgs, su)
    {
      ghost var dir0 := users;
      ghost var all := Reachable(users, msgs);
      var i := 0;
      while i < |msgs|
        invariant 0 <= i <= |msgs|
        invariant DirectoryAfter(users, msgs[i..]) == DirectoryAfter(dir0, msgs)
        invariant Reachable(users, msgs[i..]) <= all
        invariant forall su :: su in all ==>
                    old(su.inbox) + Deliveries(dir0, msgs, su) == su.inbox + Deliveries(users, msgs[i..], su)
      {
        assert msgs[i..][0] == msgs[i];
        assert msgs[i..][1..] == msgs[i + 1..];
        ReachableTail(users, msgs[i..]);
        assert users.Values <= Reachable(users, msgs[i..]);
        ghost var d := users;
        label Before:
        Process(msgs[i]);
        forall su | su in all
          ensures old(su.inbox) + Deliveries(dir0, msgs, su) == su.inbox + Deliveries(users, msgs[i + 1..], su)
        {
          var p := Pushed(d, msgs[i], su);
          var rest := Deliveries(users, msgs[i + 1..], su);
          if Target(d, msgs[i]) != D.Some(su) {
            assert p == [] && su !in TargetSet(d, msgs[i]);
          }
          var pre := old@Before(su.inbox);
          calc {
            old(su.inbox) + Deliveries(dir0, msgs, su);
            pre + Deliveries(d, msgs[i..], su);
            pre + (p + rest);
            { D.AppendAssoc(pre, p, rest); }
            (pre + p) + rest;
            su.inbox + rest;
          }
        }
        i := i + 1;
      }
      assert msgs[i..] == [];
    }
  }
}
