/** The bounded notification channel between the router and one connection: the router keeps
    the sending half in its directory, the connection owns the receiving half. */
module Channel {
  import opened Domain

  /** The error a send on a channel whose receiver is gone reports. */
  const CHANNEL_CLOSED: string := "channel closed"

  class Mailbox {
    /** Notifications sent and not yet received, oldest first. */
    var queue: seq<Notification>
    /** False once the receiving half has been dropped. */
    var receiverAlive: bool

    constructor ()
      ensures queue == [] && receiverAlive
    {
      queue := [];
      receiverAlive := true;
    }

    /** `Sender::send`: enqueue, or fail when the receiver is gone. */
    method Send(n: Notification) returns (r: Outcome)
      modifies this`queue
      ensures r == (if receiverAlive then Pass else Fail(CHANNEL_CLOSED))
      ensures queue == if receiverAlive then old(queue) + [n] else old(queue)
    {
      if receiverAlive {
        queue := queue + [n];
        r := Pass;
      } else {
        r := Fail(CHANNEL_CLOSED);
      }
    }

    /** `Receiver::try_recv`: the oldest pending notification, if any. */
    method TryRecv() returns (n: Option<Notification>)
      modifies this`queue
      ensures old(queue) == [] ==> n == None && queue == []
      ensures old(queue) != [] ==> n == Some(old(queue)[0]) && queue == old(queue)[1..]
    {
      if queue == [] {
        n := None;
      } else {
        n := Some(queue[0]);
        queue := queue[1..];
      }
    }

    /** Dropping the receiving half. It stands for the teardown of the connection that owns the
        receiver, whose code is outside this model; no modelled operation calls it, and it exists
        so that a closed channel is a reachable state. */
    method DropReceiver()
      modifies this`receiverAlive
      ensures !receiverAlive
    {
      receiverAlive := false;
    }
  }
}
