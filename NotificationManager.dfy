/** The router (`NotificationManager`): it owns the directory of online users and their mailboxes,
    and processes the commands connections post to it, one at a time, in queue order. */
module NotificationManager {
  import opened Domain
  import opened Channel
  import ChatManager

  /** The router's commands, tagged with the sender's id on the queue. This covers both the
      variants the router declares and the ones connections post: the chat list carried by
      NOTIFY_USER and the REFRESH_USER command have no routing rule and are ignored. */
  datatype Command =
    | NotifyUser(user: Uuid, chats: seq<Uuid>, mailbox: Mailbox)
    | UserOffline
    | ClientMessage(notification: Notification)
    | RefreshUser(user: Uuid)

  /** The online directory: user id to the sending half of that user's mailbox. */
  type Directory = map<Uuid, Mailbox>

  /** The routing arms for chat messages, read receipts and new chats are `todo!()`: a command
      that reaches them is outside what the router handles. */
  predicate Routable(cmd: Command) {
    cmd.ClientMessage? ==>
      !(cmd.notification.kind.NewMessage? || cmd.notification.kind.MessageRead? || cmd.notification.kind.NewChat?)
  }

  /** The receiver of a friend request or of a friend acceptance. */
  function Addressee(n: Notification): (r: Option<Uuid>)
    ensures r.Some? <==> n.kind.FriendRequest? || n.kind.FriendAccepted?
    ensures r.Some? ==> r.value == n.kind.receiver
  {
    match n.kind
    case FriendRequest(_, receiver) => Some(receiver)
    case FriendAccepted(_, receiver) => Some(receiver)
    case _ => None
  }

  /** The directory after one command from `sender`. */
  function NextDirectory(dir: Directory, sender: Uuid, cmd: Command): (r: Directory)
    ensures cmd.NotifyUser? ==>
              r.Keys == dir.Keys + {cmd.user} && r[cmd.user] == cmd.mailbox
              && forall u :: u in dir && u != cmd.user ==> r[u] == dir[u]
    ensures cmd.UserOffline? ==>
              r.Keys == dir.Keys - {sender} && forall u :: u in r ==> r[u] == dir[u]
    ensures cmd.UserOffline? && sender !in dir ==> r == dir
    ensures !cmd.NotifyUser? && !cmd.UserOffline? ==> r == dir
  {
    match cmd
    case NotifyUser(u, _, mb) => dir[u := mb]
    case UserOffline => dir - {sender}
    case _ => dir
  }

  /** The mailbox a command pushes to: the addressee's, when the addressee is online. */
  function Target(dir: Directory, cmd: Command): (t: Option<Mailbox>)
    ensures t.Some? <==>
              cmd.ClientMessage? && Addressee(cmd.notification).Some? && Addressee(cmd.notification).value in dir
    ensures t.Some? ==> t.value == dir[Addressee(cmd.notification).value]
  {
    if cmd.ClientMessage? then
      match Addressee(cmd.notification)
      case Some(r) => if r in dir then Some(dir[r]) else None
      case None => None
    else None
  }

  function TargetSet(dir: Directory, cmd: Command): set<Mailbox> {
    match Target(dir, cmd)
    case Some(m) => {m}
    case None => {}
  }

  /** The directory after a run of commands, in order. */
  function DirectoryAfter(dir: Directory, cmds: seq<(Uuid, Command)>): Directory {
    if |cmds| == 0 then dir
    else
      var last := cmds[|cmds| - 1];
      NextDirectory(DirectoryAfter(dir, cmds[..|cmds| - 1]), last.0, last.1)
  }

  /** The notifications a run of commands pushes to mailbox m, in order. */
  function Deliveries(dir: Directory, cmds: seq<(Uuid, Command)>, m: Mailbox): seq<Notification> {
    if |cmds| == 0 then []
    else
      var prefix := cmds[..|cmds| - 1];
      var last := cmds[|cmds| - 1];
      Deliveries(dir, prefix, m)
      + (if Target(DirectoryAfter(dir, prefix), last.1) == Some(m) then [last.1.notification] else [])
  }

  /** Every mailbox the run could reach: those already in the directory and those registered
      by the run. */
  function Mailboxes(dir: Directory, cmds: seq<(Uuid, Command)>): set<Mailbox> {
    dir.Values + set i | 0 <= i < |cmds| && cmds[i].1.NotifyUser? :: cmds[i].1.mailbox
  }

  lemma {:induction false} MailboxesMonotone(dir: Directory, cmds: seq<(Uuid, Command)>, n: nat)
    requires n <= |cmds|
    ensures Mailboxes(dir, cmds[..n]) <= Mailboxes(dir, cmds)
  {
    forall m | m in Mailboxes(dir, cmds[..n]) ensures m in Mailboxes(dir, cmds) {
      if m !in dir.Values {
        var i :| 0 <= i < n && cmds[..n][i].1.NotifyUser? && cmds[..n][i].1.mailbox == m;
        assert cmds[i] == cmds[..n][i];
      }
    }
  }

  /** Every mailbox in the directory after a run was already there or was registered by the run. */
  lemma {:induction false} DirectoryAfterWithin(dir: Directory, cmds: seq<(Uuid, Command)>)
    ensures DirectoryAfter(dir, cmds).Values <= Mailboxes(dir, cmds)
  {
    if |cmds| > 0 {
      var prefix := cmds[..|cmds| - 1];
      DirectoryAfterWithin(dir, prefix);
      MailboxesMonotone(dir, cmds, |cmds| - 1);
      var last := cmds[|cmds| - 1];
      if last.1.NotifyUser? {
        assert last.1.mailbox in Mailboxes(dir, cmds);
      }
      forall m | m in DirectoryAfter(dir, cmds).Values ensures m in Mailboxes(dir, cmds) {
        var u :| u in DirectoryAfter(dir, cmds) && DirectoryAfter(dir, cmds)[u] == m;
        if !(last.1.NotifyUser? && u == last.1.user) {
          assert u in DirectoryAfter(dir, prefix) && DirectoryAfter(dir, prefix)[u] == m;
        }
      }
    }
  }

  /** A user who registers and then goes offline leaves no entry behind; all other entries are as
      they were before. */
  lemma OnlineThenOffline(dir: Directory, s: Uuid, u: Uuid, chats: seq<Uuid>, mb: Mailbox)
    ensures DirectoryAfter(dir, [(s, NotifyUser(u, chats, mb)), (u, UserOffline)]) == dir - {u}
  {
    var cmds := [(s, NotifyUser(u, chats, mb)), (u, UserOffline)];
    assert cmds[..1][..0] == cmds[..0];
    assert cmds[..1] == [(s, NotifyUser(u, chats, mb))];
    assert DirectoryAfter(dir, cmds[..0]) == dir;
    assert DirectoryAfter(dir, cmds[..1]) == dir[u := mb];
    var after := DirectoryAfter(dir, cmds);
    assert after == dir[u := mb] - {u};
    assert after.Keys == (dir - {u}).Keys;
  }

  /** Client messages (and refresh requests) never change the directory. */
  lemma {:induction false} ClientMessagesKeepDirectory(dir: Directory, cmds: seq<(Uuid, Command)>)
    requires forall i :: 0 <= i < |cmds| ==> cmds[i].1.ClientMessage? || cmds[i].1.RefreshUser?
    ensures DirectoryAfter(dir, cmds) == dir
  {
    if |cmds| > 0 {
      ClientMessagesKeepDirectory(dir, cmds[..|cmds| - 1]);
    }
  }

  lemma {:induction false} DirectoryAfterAppend(dir: Directory, a: seq<(Uuid, Command)>, b: seq<(Uuid, Command)>)
    ensures DirectoryAfter(dir, a + b) == DirectoryAfter(DirectoryAfter(dir, a), b)
  {
    if |b| > 0 {
      assert (a + b)[..|a + b| - 1] == a + b[..|b| - 1];
      DirectoryAfterAppend(dir, a, b[..|b| - 1]);
    } else {
      assert a + b == a;
    }
  }

  /** Commands are processed one after another: what a mailbox receives from two runs in a row is
      what it receives from the first, then what it receives from the second. */
  lemma {:induction false} DeliveriesAppend(dir: Directory, a: seq<(Uuid, Command)>, b: seq<(Uuid, Command)>, m: Mailbox)
    ensures Deliveries(dir, a + b, m) == Deliveries(dir, a, m) + Deliveries(DirectoryAfter(dir, a), b, m)
  {
    if |b| > 0 {
      var b' := b[..|b| - 1];
      assert (a + b)[..|a + b| - 1] == a + b';
      assert (a + b)[|a + b| - 1] == b[|b| - 1];
      DeliveriesAppend(dir, a, b', m);
      DirectoryAfterAppend(dir, a, b');
    } else {
      assert a + b == a;
    }
  }

  /** Only friend requests and acceptances are pushed, each exactly as it was posted. */
  lemma {:induction false} DeliveriesArePostedFriendEvents(dir: Directory, cmds: seq<(Uuid, Command)>, m: Mailbox)
    ensures forall n :: n in Deliveries(dir, cmds, m) ==>
              (n.kind.FriendRequest? || n.kind.FriendAccepted?)
              && exists i :: 0 <= i < |cmds| && cmds[i].1 == ClientMessage(n)
  {
    if |cmds| > 0 {
      var prefix := cmds[..|cmds| - 1];
      DeliveriesArePostedFriendEvents(dir, prefix, m);
      forall n | n in Deliveries(dir, prefix, m)
        ensures exists i :: 0 <= i < |cmds| && cmds[i].1 == ClientMessage(n)
      {
        var i :| 0 <= i < |prefix| && prefix[i].1 == ClientMessage(n);
        assert cmds[i] == prefix[i];
      }
    }
  }

  /** A mailbox the run never reaches receives nothing. */
  lemma {:induction false} UnreachedMailboxGetsNothing(dir: Directory, cmds: seq<(Uuid, Command)>, m: Mailbox)
    requires m !in Mailboxes(dir, cmds)
    ensures Deliveries(dir, cmds, m) == []
  {
    if |cmds| > 0 {
      var prefix := cmds[..|cmds| - 1];
      MailboxesMonotone(dir, cmds, |cmds| - 1);
      UnreachedMailboxGetsNothing(dir, prefix, m);
      DirectoryAfterWithin(dir, prefix);
    }
  }

  class NotificationManager {
    var users: Directory
    /** Declared by the router and not yet used by it. */
    const chatManager: ChatManager.ChatManager

    /** `NotificationManager::new`: no one online, an empty topic registry. */
    constructor ()
      ensures users == map[]
      ensures fresh(chatManager) && chatManager.chats == map[]
    {
      users := map[];
      chatManager := new ChatManager.ChatManager();
    }

    /** One iteration of the command loop: register, unregister the sender, or route a friend
        request or acceptance to its receiver's mailbox when the receiver is online. A failed send
        is only logged. */
    method Process(sender: Uuid, cmd: Command)
      requires Routable(cmd)
      modifies this`users, TargetSet(users, cmd)
      ensures users == NextDirectory(old(users), sender, cmd)
      ensures match Target(old(users), cmd)
              case Some(mb) =>
                && mb.receiverAlive == old(mb.receiverAlive)
                && mb.queue == (if mb.receiverAlive then old(mb.queue) + [cmd.notification] else old(mb.queue))
              case None => unchanged(old(users).Values)
    {
      match cmd
      case NotifyUser(u, _, mb) =>
        users := users[u := mb];
      case UserOffline =>
        users := users - {sender};
      case ClientMessage(n) =>
        match n.kind {
          case FriendRequest(_, receiver) =>
            if receiver in users {
              var sent := users[receiver].Send(n);
            }
          case FriendAccepted(_, receiver) =>
            if receiver in users {
              var sent := users[receiver].Send(n);
            }
          case _ =>
        }
      case RefreshUser(_) =>
    }

    /** `while let Ok(..) = receiver.try_recv()`: the queued commands in order. A failed send does
        not stop the next command. */
    method Drain(cmds: seq<(Uuid, Command)>)
      requires forall i :: 0 <= i < |cmds| ==> Routable(cmds[i].1)
      modifies this`users, Mailboxes(users, cmds)
      ensures users == DirectoryAfter(old(users), cmds)
      ensures forall m :: m in Mailboxes(old(users), cmds) ==>
                && m.receiverAlive == old(m.receiverAlive)
                && m.queue == old(m.queue) + (if m.receiverAlive then Deliveries(old(users), cmds, m) else [])
    {
      ghost var dir0 := users;
      ghost var all := Mailboxes(users, cmds);
      var i := 0;
      while i < |cmds|
        invariant 0 <= i <= |cmds|
        invariant users == DirectoryAfter(dir0, cmds[..i])
        invariant forall m :: m in all ==>
                    && m.receiverAlive == old(m.receiverAlive)
                    && m.queue == old(m.queue) + (if m.receiverAlive then Deliveries(dir0, cmds[..i], m) else [])
      {
        assert cmds[..i + 1][..i] == cmds[..i];
        assert cmds[..i + 1][i] == cmds[i];
        DirectoryAfterWithin(dir0, cmds[..i]);
        MailboxesMonotone(dir0, cmds, i);
        Process(cmds[i].0, cmds[i].1);
        i := i + 1;
      }
      assert cmds[..i] == cmds;
    }
  }
}
