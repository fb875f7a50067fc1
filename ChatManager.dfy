/** The per-chat topic registry (`ChatManager`): one bounded broadcast topic per chat id. */
module ChatManager {
  import opened Domain

  /** The replay capacity every topic is created with. */
  const TOPIC_CAPACITY: nat := 50

  /** A broadcast topic: its capacity and the notifications handed to its `send`, oldest first.
      What the broadcast library then does with them (receivers, lag) is not modelled. */
  datatype Topic = Topic(capacity: nat, sent: seq<Notification>)

  /** A receiving cursor on a chat's topic, starting at the topic's current tail. */
  datatype Subscription = Subscription(chatId: Uuid, cursor: nat)

  function NewTopic(): Topic {
    Topic(TOPIC_CAPACITY, [])
  }

  /** `entry(chat).or_insert(Sender::new(50))`: the registry with a topic for `chat`, an existing
      topic being kept. */
  function EnsureTopic(chats: map<Uuid, Topic>, chat: Uuid): (r: map<Uuid, Topic>)
    ensures r.Keys == chats.Keys + {chat}
    ensures chat in chats ==> r == chats
    ensures chat !in chats ==> r[chat] == NewTopic()
    ensures forall c :: c in chats ==> r[c] == chats[c]
  {
    if chat in chats then chats else chats[chat := NewTopic()]
  }

  /** The registry after `post(chat, n)`: the chat's topic (created if missing) has been handed n;
      every other chat's topic is unchanged. */
  function PostTo(chats: map<Uuid, Topic>, chat: Uuid, n: Notification): (r: map<Uuid, Topic>)
    ensures r.Keys == chats.Keys + {chat}
    ensures chat in chats ==> r[chat] == chats[chat].(sent := chats[chat].sent + [n])
    ensures chat !in chats ==> r[chat] == Topic(TOPIC_CAPACITY, [n])
    ensures forall c :: c in chats && c != chat ==> r[c] == chats[c]
  {
    var t := EnsureTopic(chats, chat)[chat];
    EnsureTopic(chats, chat)[chat := t.(sent := t.sent + [n])]
  }

  /** `new_chat` is idempotent. */
  lemma EnsureTopicIdempotent(chats: map<Uuid, Topic>, chat: Uuid)
    ensures EnsureTopic(EnsureTopic(chats, chat), chat) == EnsureTopic(chats, chat)
  {
  }

  /** Posting to several chats leaves the topic of any other chat as it was. */
  lemma {:induction false} PostsLeaveOthers(chats: map<Uuid, Topic>, posts: seq<(Uuid, Notification)>, c: Uuid)
    requires c in chats
    requires forall i :: 0 <= i < |posts| ==> posts[i].0 != c
    ensures c in PostAll(chats, posts) && PostAll(chats, posts)[c] == chats[c]
  {
    if |posts| > 0 {
      PostsLeaveOthers(chats, posts[..|posts| - 1], c);
    }
  }

  /** Several posts, in order. */
  function PostAll(chats: map<Uuid, Topic>, posts: seq<(Uuid, Notification)>): (r: map<Uuid, Topic>)
    ensures chats.Keys <= r.Keys
  {
    if |posts| == 0 then chats
    else
      var prev := PostAll(chats, posts[..|posts| - 1]);
      PostTo(prev, posts[|posts| - 1].0, posts[|posts| - 1].1)
  }

  /** Posting a run of notifications to one chat hands them to its topic in order. */
  lemma {:induction false} PostsInOrder(chats: map<Uuid, Topic>, c: Uuid, ns: seq<Notification>)
    requires c in chats
    ensures var r := PostAll(chats, seq(|ns|, i requires 0 <= i < |ns| => (c, ns[i])));
            c in r && r[c] == chats[c].(sent := chats[c].sent + ns)
  {
    var posts := seq(|ns|, i requires 0 <= i < |ns| => (c, ns[i]));
    if |ns| > 0 {
      var init := ns[..|ns| - 1];
      assert posts[..|posts| - 1] == seq(|init|, i requires 0 <= i < |init| => (c, init[i]));
      PostsInOrder(chats, c, init);
      assert init + [ns[|ns| - 1]] == ns;
    }
  }

  class ChatManager {
    var chats: map<Uuid, Topic>

    /** `ChatManager::default()`. */
    constructor ()
      ensures chats == map[]
    {
      chats := map[];
    }

    /** `new_chat`: register the chat, keeping an existing topic. */
    method NewChat(chat: Uuid)
      modifies this
      ensures chats == EnsureTopic(old(chats), chat)
    {
      if chat !in chats {
        chats := chats[chat := NewTopic()];
      }
    }

    /** `post`: create the topic if missing, then hand it the notification. A failed send is only
        logged, so nothing is reported to the caller. */
    method Post(chat: Uuid, n: Notification)
      modifies this
      ensures chats == PostTo(old(chats), chat, n)
    {
      if chat !in chats {
        chats := chats[chat := NewTopic()];
      }
      var t := chats[chat];
      chats := chats[chat := t.(sent := t.sent + [n])];
    }

    /** `subscribe`: a cursor at the tail of a registered chat's topic; no topic is created. */
    method Subscribe(chat: Uuid) returns (r: Option<Subscription>)
      ensures r.Some? <==> chat in chats
      ensures r.Some? ==> r.value == Subscription(chat, |chats[chat].sent|)
    {
      if chat in chats {
        r := Some(Subscription(chat, |chats[chat].sent|));
      } else {
        r := None;
      }
    }
  }
}
