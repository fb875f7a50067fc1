/** The persistence layer (`MongoDB`): the user and notification collections held in memory, the
    lookups and queries over them, and the operations whose bodies are not visible, kept as
    uninterpreted oracles and a log of writes. */
module Store {
  import opened Domain

  const USER_NOT_FOUND: string := "Failed to find User!"
  const USER_EXISTS: string := "User already exist!"
  const FILL_FIELDS: string := "Please fill all the fields!"

  /** The query documents `get_db_user` is called with. */
  datatype Filter =
    | ById(id: Uuid)
    | ByEmail(email: string)
    | ByCredentials(email: string, password: string)
    | ByTag(tag: string)

  predicate Matches(u: DbUser, f: Filter) {
    match f
    case ById(id) => u.uuid == id
    case ByEmail(e) => u.email == e
    case ByCredentials(e, p) => u.email == e && u.password == p
    case ByTag(t) => u.tag == t
  }

  predicate HasUser(users: seq<DbUser>, id: Uuid) {
    exists j :: 0 <= j < |users| && users[j].uuid == id
  }

  /** The position of the first record matching `f` (`find_one` scans in stored order), or |users|. */
  function FirstMatch(users: seq<DbUser>, f: Filter): (k: nat)
    ensures k <= |users|
    ensures k < |users| ==> Matches(users[k], f)
    ensures forall j :: 0 <= j < k ==> !Matches(users[j], f)
  {
    if |users| == 0 then 0
    else if Matches(users[0], f) then 0
    else 1 + FirstMatch(users[1..], f)
  }

  /** `get_db_user`: the first stored user that matches, or "Failed to find User!". */
  function GetDbUser(users: seq<DbUser>, f: Filter): (r: Result<DbUser>)
    ensures r.Success? <==> exists j :: 0 <= j < |users| && Matches(users[j], f)
    ensures r.Success? ==> Matches(r.value, f) && r.value == users[FirstMatch(users, f)]
    ensures r.Failure? ==> r.error == USER_NOT_FOUND
  {
    var k := FirstMatch(users, f);
    if k < |users| then Success(users[k]) else Failure(USER_NOT_FOUND)
  }

  /** `User::from(DbUser)`: the profile carries the credentials and no expanded friends. */
  function FromDb(d: DbUser): User {
    User(d.uuid, d.tag, [], Some(Credentials(d.email, d.password)))
  }

  /** `strip_info`: the profile without its private part. */
  function StripInfo(u: User): User {
    u.(credentials := None)
  }

  /** The profile shapes a query may return: no credentials and no expanded friends. */
  predicate Stripped(u: User) {
    u.credentials.None? && u.friends == []
  }

  /** `get_striped_user`. */
  function GetStripedUser(users: seq<DbUser>, f: Filter): (r: Result<User>)
    ensures r.Success? <==> GetDbUser(users, f).Success?
    ensures r.Success? ==> Stripped(r.value) && r.value.uuid == GetDbUser(users, f).value.uuid
                           && r.value.tag == GetDbUser(users, f).value.tag
    ensures r.Failure? ==> r.error == USER_NOT_FOUND
  {
    match GetDbUser(users, f)
    case Failure(e) => Failure(e)
    case Success(d) => Success(StripInfo(FromDb(d)))
  }

  // ---------------------------------------------------------------------------
  // Friend expansion (`login`, `get_full_user`)
  // ---------------------------------------------------------------------------

  /** The friend loop of `login` and `get_full_user`: every listed friend looked up in order,
      the first missing one failing the whole expansion. */
  function ExpandFriends(users: seq<DbUser>, ids: seq<Uuid>): Result<seq<User>>
  {
    if |ids| == 0 then Success([])
    else
      match ExpandFriends(users, ids[..|ids| - 1])
      case Failure(e) => Failure(e)
      case Success(fs) =>
        match GetDbUser(users, ById(ids[|ids| - 1]))
        case Failure(e) => Failure(e)
        case Success(d) => Success(fs + [FromDb(d)])
  }

  /** The expansion succeeds exactly when every listed friend exists, and then yields one profile
      per listed id, in the listed order. */
  lemma {:induction false} ExpandFriendsSpec(users: seq<DbUser>, ids: seq<Uuid>)
    ensures ExpandFriends(users, ids).Success? <==> forall i :: 0 <= i < |ids| ==> HasUser(users, ids[i])
    ensures ExpandFriends(users, ids).Failure? ==> ExpandFriends(users, ids).error == USER_NOT_FOUND
    ensures ExpandFriends(users, ids).Success? ==>
              var fs := ExpandFriends(users, ids).value;
              |fs| == |ids| && forall i :: 0 <= i < |ids| ==> fs[i].uuid == ids[i]
  {
    if |ids| > 0 {
      var init := ids[..|ids| - 1];
      ExpandFriendsSpec(users, init);
      var last := ids[|ids| - 1];
      if !HasUser(users, last) {
        assert !GetDbUser(users, ById(last)).Success?;
      } else {
        var j :| 0 <= j < |users| && users[j].uuid == last;
        assert Matches(users[j], ById(last));
      }
      if ExpandFriends(users, ids).Success? {
        forall i | 0 <= i < |ids| ensures HasUser(users, ids[i]) {
          if i < |ids| - 1 { assert ids[i] == init[i]; }
        }
      }
      if forall i :: 0 <= i < |ids| ==> HasUser(users, ids[i]) {
        forall i | 0 <= i < |init| ensures HasUser(users, init[i]) {
          assert init[i] == ids[i];
        }
      }
    }
  }

  /** Once a prefix of the friend list fails to expand, the whole list fails. */
  lemma {:induction false} ExpandFriendsPrefixFails(users: seq<DbUser>, ids: seq<Uuid>, n: nat)
    requires n <= |ids|
    requires ExpandFriends(users, ids[..n]).Failure?
    ensures ExpandFriends(users, ids) == Failure(USER_NOT_FOUND)
  {
    ExpandFriendsSpec(users, ids[..n]);
    ExpandFriendsSpec(users, ids);
    var i :| 0 <= i < n && !HasUser(users, ids[..n][i]);
    assert ids[i] == ids[..n][i];
  }

  /** Each expanded friend is the friend's full record converted by `User::from`, so it still
      carries that friend's email and password: nothing strips the friends. */
  lemma {:induction false} ExpandedFriendsKeepCredentials(users: seq<DbUser>, ids: seq<Uuid>)
    ensures ExpandFriends(users, ids).Success? ==>
              forall i :: 0 <= i < |ExpandFriends(users, ids).value| ==>
                ExpandFriends(users, ids).value[i].credentials.Some?
  {
    if |ids| > 0 {
      ExpandedFriendsKeepCredentials(users, ids[..|ids| - 1]);
    }
  }

  /** What `login` (filter by credentials) and `get_full_user` (filter by id) compute: the stored
      record with its friends expanded. */
  function FullUser(users: seq<DbUser>, f: Filter): Result<User>
  {
    match GetDbUser(users, f)
    case Failure(e) => Failure(e)
    case Success(d) =>
      match ExpandFriends(users, d.friends)
      case Failure(e) => Failure(e)
      case Success(fs) => Success(FromDb(d).(friends := fs))
  }

  /** A full profile exists exactly when the record exists and every friend it lists exists;
      one missing friend fails the lookup with "Failed to find User!". */
  lemma FullUserSpec(users: seq<DbUser>, f: Filter)
    ensures FullUser(users, f).Success? <==>
              GetDbUser(users, f).Success?
              && forall i :: 0 <= i < |GetDbUser(users, f).value.friends| ==>
                               HasUser(users, GetDbUser(users, f).value.friends[i])
    ensures FullUser(users, f).Failure? ==> FullUser(users, f).error == USER_NOT_FOUND
    ensures FullUser(users, f).Success? ==>
              var u := FullUser(users, f).value;
              var d := GetDbUser(users, f).value;
              && u.uuid == d.uuid && u.tag == d.tag
              && u.credentials == Some(Credentials(d.email, d.password))
              && |u.friends| == |d.friends|
              && forall i :: 0 <= i < |d.friends| ==> u.friends[i].uuid == d.friends[i]
  {
    if GetDbUser(users, f).Success? {
      ExpandFriendsSpec(users, GetDbUser(users, f).value.friends);
    }
  }

  // ---------------------------------------------------------------------------
  // Sign-up validation
  // ---------------------------------------------------------------------------

  /** The checks of `sign_up`, in order: an existing email first, then the required fields. */
  function SignUpError(users: seq<DbUser>, info: UserCreationInfo): (e: Option<string>)
    ensures e == Some(USER_EXISTS) <==> exists j :: 0 <= j < |users| && users[j].email == info.email
    ensures e == Some(FILL_FIELDS) <==>
              (forall j :: 0 <= j < |users| ==> users[j].email != info.email)
              && (info.tag == "" || info.email == "" || !info.password.valid)
    ensures e.None? || e == Some(USER_EXISTS) || e == Some(FILL_FIELDS)
  {
    if GetDbUser(users, ByEmail(info.email)).Success? then
      assert Matches(GetDbUser(users, ByEmail(info.email)).value, ByEmail(info.email));
      Some(USER_EXISTS)
    else if info.tag == "" || info.email == "" || !info.password.valid then
      assert forall j :: 0 <= j < |users| ==> !Matches(users[j], ByEmail(info.email));
      Some(FILL_FIELDS)
    else
      assert forall j :: 0 <= j < |users| ==> !Matches(users[j], ByEmail(info.email));
      None
  }

  /** `DbUser::new`: a record with a fresh id and no friends. */
  function NewDbUser(info: UserCreationInfo, id: Uuid): DbUser {
    DbUser(id, info.tag, info.email, info.password.text, [])
  }

  /** The largest id among the stored users, or 0. */
  function MaxUuid(users: seq<DbUser>): (m: Uuid)
    ensures forall j :: 0 <= j < |users| ==> users[j].uuid <= m
  {
    if |users| == 0 then 0
    else
      var m := MaxUuid(users[..|users| - 1]);
      assert forall j :: 0 <= j < |users| - 1 ==> users[j] == users[..|users| - 1][j];
      if users[|users| - 1].uuid > m then users[|users| - 1].uuid else m
  }

  /** The id the next new record gets: past every id handed out and every id stored, so it is
      fresh and never the unset id. This stands for the random `UUID::generate` of `DbUser::new`. */
  function NextUserId(users: seq<DbUser>, lastId: nat): (id: Uuid)
    ensures IsValid(id) && id > lastId
    ensures forall j :: 0 <= j < |users| ==> users[j].uuid != id
  {
    (if lastId > MaxUuid(users) then lastId else MaxUuid(users)) + 1
  }

  /** Looking a freshly signed-up user up by id finds the new record, not an older one. */
  lemma {:induction false} FreshRecordFound(users: seq<DbUser>, d: DbUser)
    requires forall j :: 0 <= j < |users| ==> users[j].uuid != d.uuid
    ensures GetDbUser(users + [d], ById(d.uuid)) == Success(d)
  {
    FreshRecordFirst(users, d);
  }

  lemma {:induction false} FreshRecordFirst(users: seq<DbUser>, d: DbUser)
    requires forall j :: 0 <= j < |users| ==> users[j].uuid != d.uuid
    ensures FirstMatch(users + [d], ById(d.uuid)) == |users|
  {
    if |users| > 0 {
      assert (users + [d])[1..] == users[1..] + [d];
      FreshRecordFirst(users[1..], d);
    }
  }

  /** What `sign_up` answers, given the id the new record would get. */
  function SignUpResult(users: seq<DbUser>, info: UserCreationInfo, id: Uuid): (r: Result<User>)
    ensures r.Failure? <==> SignUpError(users, info).Some?
    ensures r.Failure? ==> r.error == SignUpError(users, info).value
    ensures r.Success? ==> r.value.uuid == id && r.value.tag == info.tag && r.value.friends == []
  {
    match SignUpError(users, info)
    case Some(e) => Failure(e)
    case None => Success(FromDb(NewDbUser(info, id)))
  }

  // ---------------------------------------------------------------------------
  // Friend links (`insert_friend`, `$addToSet`)
  // ---------------------------------------------------------------------------

  /** `$addToSet`: append x unless it is already present. */
  function AddToSet(s: seq<Uuid>, x: Uuid): (r: seq<Uuid>)
    ensures x in r
    ensures forall y :: y in r <==> y in s || y == x
    ensures x in s ==> r == s
  {
    if x in s then s else s + [x]
  }

  /** `insert_friend(u, f)`: `update_one` on the first record with id u; no such record, no change. */
  function AddFriend(users: seq<DbUser>, u: Uuid, f: Uuid): (r: seq<DbUser>)
    ensures |r| == |users|
    ensures forall j :: 0 <= j < |users| && j != FirstMatch(users, ById(u)) ==> r[j] == users[j]
    ensures FirstMatch(users, ById(u)) < |users| ==>
              var k := FirstMatch(users, ById(u));
              r[k] == users[k].(friends := AddToSet(users[k].friends, f))
  {
    var k := FirstMatch(users, ById(u));
    if k < |users| then users[k := users[k].(friends := AddToSet(users[k].friends, f))] else users
  }

  /** Updating a record without changing its id leaves the first match by id where it was. */
  lemma {:induction false} FirstMatchByIdKept(users: seq<DbUser>, k: nat, d: DbUser, id: Uuid)
    requires k < |users| && d.uuid == users[k].uuid
    ensures FirstMatch(users[k := d], ById(id)) == FirstMatch(users, ById(id))
  {
    if k > 0 {
      assert users[k := d][1..] == users[1..][k - 1 := d];
      FirstMatchByIdKept(users[1..], k - 1, d, id);
    }
  }

  /** `insert_friend` is set insertion: repeating it changes nothing. */
  lemma AddFriendIdempotent(users: seq<DbUser>, u: Uuid, f: Uuid)
    ensures AddFriend(AddFriend(users, u, f), u, f) == AddFriend(users, u, f)
  {
    var k := FirstMatch(users, ById(u));
    if k < |users| {
      FirstMatchByIdKept(users, k, users[k].(friends := AddToSet(users[k].friends, f)), u);
    }
  }

  // ---------------------------------------------------------------------------
  // Notifications
  // ---------------------------------------------------------------------------

  /** `Notification::from(DbNotification)`. */
  function ToNotification(d: DbNotification): Notification {
    Notification(d.uuid, d.kind)
  }

  /** `get_user_notifications`: the notifications stored for `user`, in stored order. */
  function GetUserNotifications(ns: seq<DbNotification>, user: Uuid): (r: seq<Notification>)
    ensures |r| <= |ns|
    ensures forall x :: x in r <==> exists i :: 0 <= i < |ns| && ns[i].user == user && x == ToNotification(ns[i])
  {
    if |ns| == 0 then []
    else
      var init := GetUserNotifications(ns[..|ns| - 1], user);
      var last := ns[|ns| - 1];
      assert forall i :: 0 <= i < |ns| - 1 ==> ns[..|ns| - 1][i] == ns[i];
      init + (if last.user == user then [ToNotification(last)] else [])
  }

  /** The friend requests among some notifications, in order. */
  function OnlyFriendRequests(ns: seq<Notification>): (r: seq<Notification>)
    ensures |r| <= |ns|
    ensures forall x :: x in r <==> x in ns && x.kind.FriendRequest?
  {
    if |ns| == 0 then []
    else OnlyFriendRequests(ns[..|ns| - 1]) + (if ns[|ns| - 1].kind.FriendRequest? then [ns[|ns| - 1]] else [])
  }

  /** `get_user_friend_requests`: exactly the stored FRIEND_REQUEST notifications of `user`. */
  function GetUserFriendRequests(ns: seq<DbNotification>, user: Uuid): (r: seq<Notification>)
    ensures forall x :: x in r <==>
              exists i :: 0 <= i < |ns| && ns[i].user == user && ns[i].kind.FriendRequest? && x == ToNotification(ns[i])
  {
    OnlyFriendRequests(GetUserNotifications(ns, user))
  }

  /** Both filters keep stored order: filtering a concatenation concatenates the filtered parts. */
  lemma {:induction false} FriendRequestsAppend(a: seq<DbNotification>, b: seq<DbNotification>, user: Uuid)
    ensures GetUserFriendRequests(a + b, user) == GetUserFriendRequests(a, user) + GetUserFriendRequests(b, user)
  {
    UserNotificationsAppend(a, b, user);
    OnlyFriendRequestsAppend(GetUserNotifications(a, user), GetUserNotifications(b, user));
  }

  lemma {:induction false} UserNotificationsAppend(a: seq<DbNotification>, b: seq<DbNotification>, user: Uuid)
    ensures GetUserNotifications(a + b, user) == GetUserNotifications(a, user) + GetUserNotifications(b, user)
  {
    if |b| > 0 {
      assert (a + b)[..|a + b| - 1] == a + b[..|b| - 1];
      UserNotificationsAppend(a, b[..|b| - 1], user);
    } else {
      assert a + b == a;
    }
  }

  lemma {:induction false} OnlyFriendRequestsAppend(a: seq<Notification>, b: seq<Notification>)
    ensures OnlyFriendRequests(a + b) == OnlyFriendRequests(a) + OnlyFriendRequests(b)
  {
    if |b| > 0 {
      assert (a + b)[..|a + b| - 1] == a + b[..|b| - 1];
      OnlyFriendRequestsAppend(a, b[..|b| - 1]);
    } else {
      assert a + b == a;
    }
  }

  /** The position of the first notification with this id, or |ns|. */
  function FirstNotification(ns: seq<DbNotification>, id: Uuid): (k: nat)
    ensures k <= |ns|
    ensures k < |ns| ==> ns[k].uuid == id
    ensures forall j :: 0 <= j < k ==> ns[j].uuid != id
  {
    if |ns| == 0 then 0
    else if ns[0].uuid == id then 0
    else 1 + FirstNotification(ns[1..], id)
  }

  /** `remove_notification`: `delete_one` removes the first record with that id, if any. */
  function RemoveNotification(ns: seq<DbNotification>, id: Uuid): (r: seq<DbNotification>)
    ensures (exists j :: 0 <= j < |ns| && ns[j].uuid == id) ==>
              |r| == |ns| - 1 && multiset(r) + multiset{ns[FirstNotification(ns, id)]} == multiset(ns)
    ensures (forall j :: 0 <= j < |ns| ==> ns[j].uuid != id) ==> r == ns
  {
    var k := FirstNotification(ns, id);
    if k < |ns| then
      assert ns == ns[..k] + [ns[k]] + ns[k + 1..];
      ns[..k] + ns[k + 1..]
    else ns
  }

  /** One `remove_notification` per id, in order. */
  function RemoveEach(ns: seq<DbNotification>, ids: seq<Uuid>): seq<DbNotification>
  {
    if |ids| == 0 then ns
    else RemoveNotification(RemoveEach(ns, ids[..|ids| - 1]), ids[|ids| - 1])
  }

  /** Removing a run of ids only ever removes records. */
  lemma {:induction false} RemoveEachShrinks(ns: seq<DbNotification>, ids: seq<Uuid>)
    ensures multiset(RemoveEach(ns, ids)) <= multiset(ns)
  {
    if |ids| > 0 {
      RemoveEachShrinks(ns, ids[..|ids| - 1]);
    }
  }

  /** No two stored notifications share an id (each is created under a fresh id). */
  predicate UniqueIds(ns: seq<DbNotification>) {
    forall i, j :: 0 <= i < j < |ns| ==> ns[i].uuid != ns[j].uuid
  }

  /** No stored notification has an id past `bound`. */
  predicate IdsAtMost(ns: seq<DbNotification>, bound: nat) {
    forall i :: 0 <= i < |ns| ==> ns[i].uuid <= bound
  }

  /** With unique ids, `remove_notification(id)` removes exactly the record with that id. */
  lemma RemoveNotificationUnique(ns: seq<DbNotification>, id: Uuid)
    requires UniqueIds(ns)
    ensures UniqueIds(RemoveNotification(ns, id))
    ensures forall d :: d in RemoveNotification(ns, id) <==> d in ns && d.uuid != id
  {
    var k := FirstNotification(ns, id);
    if k < |ns| {
      var r := ns[..k] + ns[k + 1..];
      assert r == RemoveNotification(ns, id);
      assert forall j :: 0 <= j < |r| ==> r[j] == if j < k then ns[j] else ns[j + 1];
      forall d | d in ns && d.uuid != id ensures d in r {
        var j :| 0 <= j < |ns| && ns[j] == d;
        if j < k { assert r[j] == d; } else { assert j != k && r[j - 1] == d; }
      }
    }
  }

  /** With unique ids, removing a run of ids removes exactly the records with one of those ids. */
  lemma {:induction false} RemoveEachUnique(ns: seq<DbNotification>, ids: seq<Uuid>)
    requires UniqueIds(ns)
    ensures UniqueIds(RemoveEach(ns, ids))
    ensures forall d :: d in RemoveEach(ns, ids) <==> d in ns && d.uuid !in ids
  {
    if |ids| > 0 {
      var init := ids[..|ids| - 1];
      var last := ids[|ids| - 1];
      RemoveEachUnique(ns, init);
      RemoveNotificationUnique(RemoveEach(ns, init), last);
      assert ids == init + [last];
      assert forall x :: x in ids <==> x in init || x == last;
    }
  }

  // ---------------------------------------------------------------------------
  // Queries (`query_by_tag`, `query_by_uuid`, `query_contains_tag`)
  // ---------------------------------------------------------------------------

  /** The loop of `query_by_tag` and `query_by_uuid`: one stripped profile per filter that matches,
      in filter order; filters that match nothing are skipped. */
  function Found(users: seq<DbUser>, filters: seq<Filter>): seq<User>
  {
    if |filters| == 0 then []
    else
      Found(users, filters[..|filters| - 1])
      + (match GetStripedUser(users, filters[|filters| - 1])
         case Success(u) => [u]
         case Failure(_) => [])
  }

  /** Never more results than inputs, and every result is stripped. */
  lemma {:induction false} FoundBounded(users: seq<DbUser>, filters: seq<Filter>)
    ensures |Found(users, filters)| <= |filters|
    ensures forall u :: u in Found(users, filters) ==> Stripped(u)
  {
    if |filters| > 0 {
      FoundBounded(users, filters[..|filters| - 1]);
    }
  }

  /** Order preservation: the answers for a concatenation of inputs are the answers for the first
      part followed by the answers for the second. */
  lemma {:induction false} FoundAppend(users: seq<DbUser>, a: seq<Filter>, b: seq<Filter>)
    ensures Found(users, a + b) == Found(users, a) + Found(users, b)
  {
    if |b| > 0 {
      assert (a + b)[..|a + b| - 1] == a + b[..|b| - 1];
      FoundAppend(users, a, b[..|b| - 1]);
    } else {
      assert a + b == a;
    }
  }

  /** When every input matches, there is exactly one answer per input, in input order. */
  lemma {:induction false} FoundAllMatch(users: seq<DbUser>, filters: seq<Filter>)
    requires forall i :: 0 <= i < |filters| ==> GetDbUser(users, filters[i]).Success?
    ensures |Found(users, filters)| == |filters|
    ensures forall i :: 0 <= i < |filters| ==> Found(users, filters)[i].uuid == GetDbUser(users, filters[i]).value.uuid
  {
    if |filters| > 0 {
      var init := filters[..|filters| - 1];
      forall i | 0 <= i < |init| ensures GetDbUser(users, init[i]).Success? {
        assert init[i] == filters[i];
      }
      FoundAllMatch(users, init);
    }
  }

  function TagFilters(tags: seq<string>): (fs: seq<Filter>)
    ensures |fs| == |tags| && forall i :: 0 <= i < |tags| ==> fs[i] == ByTag(tags[i])
  {
    seq(|tags|, i requires 0 <= i < |tags| => ByTag(tags[i]))
  }

  function IdFilters(ids: seq<Uuid>): (fs: seq<Filter>)
    ensures |fs| == |ids| && forall i :: 0 <= i < |ids| ==> fs[i] == ById(ids[i])
  {
    seq(|ids|, i requires 0 <= i < |ids| => ById(ids[i]))
  }

  /** `query_contains_tag`: every stored user whose tag the store's pattern match accepts,
      stripped, in stored order. */
  function ContainsTag(users: seq<DbUser>, tag: string, matches: (string, string) -> bool): (r: seq<User>)
    ensures |r| <= |users|
    ensures forall u :: u in r ==> Stripped(u)
  {
    if |users| == 0 then []
    else
      ContainsTag(users[..|users| - 1], tag, matches)
      + (if matches(users[|users| - 1].tag, tag) then [StripInfo(FromDb(users[|users| - 1]))] else [])
  }

  // ---------------------------------------------------------------------------
  // The store
  // ---------------------------------------------------------------------------

  /** The store operations whose bodies are outside this model, as requests. */
  datatype StoreWrite =
    | InsertNonDuplicantNotification(user: Uuid, notification: Notification)
    | NewChatWrite(chat: Chat)
    | InsertMessage(chatId: Uuid, message: ChatMessage)
    | RemoveChat(chatId: Uuid)
    | RemoveFriendWrite(user: Uuid, friend: Uuid)
    | ChangeUserTag(user: Uuid, newTag: string)

  /** One database handle. The `Users` and `Notifications` collections are sequences; the
      invisible chat lookups answer from fixed oracles; invisible writes are logged when their
      oracle accepts them. */
  class MongoDb {
    var users: seq<DbUser>
    var notifications: seq<DbNotification>
    var writes: seq<StoreWrite>
    var lastId: nat
    /** `get_chat`. */
    const chatOracle: Uuid -> Result<Chat>
    /** `get_user_chats`. */
    const userChatsOracle: Uuid -> Result<seq<Chat>>
    /** The error, if any, each invisible write fails with. */
    const writeError: StoreWrite -> Option<string>
    /** The case-insensitive `$regex` match of `query_contains_tag`: (stored tag, pattern). */
    const tagMatches: (string, string) -> bool

    constructor (users: seq<DbUser>, notifications: seq<DbNotification>, lastId: nat,
                 chatOracle: Uuid -> Result<Chat>, userChatsOracle: Uuid -> Result<seq<Chat>>,
                 writeError: StoreWrite -> Option<string>, tagMatches: (string, string) -> bool)
      ensures this.users == users && this.notifications == notifications && this.writes == []
      ensures this.lastId == lastId
      ensures this.chatOracle == chatOracle && this.userChatsOracle == userChatsOracle
      ensures this.writeError == writeError && this.tagMatches == tagMatches
    {
      this.users := users;
      this.notifications := notifications;
      this.writes := [];
      this.lastId := lastId;
      this.chatOracle := chatOracle;
      this.userChatsOracle := userChatsOracle;
      this.writeError := writeError;
      this.tagMatches := tagMatches;
    }

    /** The friend loop shared by `login` and `get_full_user`. */
    method Expand(d: DbUser) returns (r: Result<User>)
      ensures r == match ExpandFriends(users, d.friends)
                   case Failure(e) => Failure(e)
                   case Success(fs) => Success(FromDb(d).(friends := fs))
    {
      var friends: seq<User> := [];
      var i := 0;
      while i < |d.friends|
        invariant 0 <= i <= |d.friends|
        invariant ExpandFriends(users, d.friends[..i]) == Success(friends)
      {
        var found := GetDbUser(users, ById(d.friends[i]));
        assert d.friends[..i + 1][..i] == d.friends[..i];
        if found.Failure? {
          ExpandFriendsPrefixFails(users, d.friends, i + 1);
          return Failure(found.error);
        }
        friends := friends + [FromDb(found.value)];
        i := i + 1;
      }
      assert d.friends[..i] == d.friends;
      r := Success(FromDb(d).(friends := friends));
    }

    /** `login`: the record with these credentials, friends expanded. */
    method Login(info: UserCreationInfo) returns (r: Result<User>)
      ensures r == FullUser(users, ByCredentials(info.email, info.password.text))
    {
      var found := GetDbUser(users, ByCredentials(info.email, info.password.text));
      if found.Failure? {
        return Failure(found.error);
      }
      r := Expand(found.value);
    }

    /** `get_full_user`: the record with this id, friends expanded. */
    method GetFullUser(id: Uuid) returns (r: Result<User>)
      ensures r == FullUser(users, ById(id))
    {
      var found := GetDbUser(users, ById(id));
      if found.Failure? {
        return Failure(found.error);
      }
      r := Expand(found.value);
    }

    /** The id generator behind `DbUser::new`: ids handed out are fresh and never the unset id. */
    method FreshId() returns (id: Uuid)
      modifies this`lastId
      ensures id == NextUserId(users, old(lastId)) && lastId == id
      ensures IsValid(id) && id > old(lastId) && forall j :: 0 <= j < |users| ==> users[j].uuid != id
    {
      var m := MaxUuid(users);
      lastId := (if lastId > m then lastId else m) + 1;
      id := lastId;
    }

    /** `sign_up`: refuse an existing email, then incomplete fields; otherwise add one record. */
    method SignUp(info: UserCreationInfo) returns (r: Result<User>)
      modifies this`users, this`lastId
      ensures r == SignUpResult(old(users), info, NextUserId(old(users), old(lastId)))
      ensures r.Success? ==>
                && users == old(users) + [NewDbUser(info, r.value.uuid)] && lastId == r.value.uuid
                && (forall j :: 0 <= j < |old(users)| ==> old(users)[j].uuid != r.value.uuid)
                && GetDbUser(users, ById(r.value.uuid)) == Success(NewDbUser(info, r.value.uuid))
      ensures r.Failure? ==> users == old(users) && lastId == old(lastId)
    {
      var e := SignUpError(users, info);
      if e.Some? {
        return Failure(e.value);
      }
      var id := FreshId();
      var d := NewDbUser(info, id);
      FreshRecordFound(users, d);
      users := users + [d];
      r := Success(FromDb(d));
    }

    /** `insert_friend`. */
    method InsertFriend(u: Uuid, f: Uuid)
      modifies this`users
      ensures users == AddFriend(old(users), u, f)
    {
      users := AddFriend(users, u, f);
    }

    /** `insert_notification`: store the notification for `user`. */
    method InsertNotification(user: Uuid, n: Notification)
      modifies this`notifications
      ensures notifications == old(notifications) + [DbNotification(n.uuid, user, n.kind)]
    {
      notifications := notifications + [DbNotification(n.uuid, user, n.kind)];
    }

    /** `remove_notification`. */
    method RemoveNotificationById(id: Uuid)
      modifies this`notifications
      ensures notifications == RemoveNotification(old(notifications), id)
    {
      notifications := RemoveNotification(notifications, id);
    }

    /** The loop of `query_by_tag` and `query_by_uuid`. */
    method QueryBy(filters: seq<Filter>) returns (result: seq<User>)
      ensures result == Found(users, filters)
    {
      result := [];
      var i := 0;
      while i < |filters|
        invariant 0 <= i <= |filters|
        invariant result == Found(users, filters[..i])
      {
        assert filters[..i + 1][..i] == filters[..i];
        var found := GetStripedUser(users, filters[i]);
        if found.Success? {
          result := result + [found.value];
        }
        i := i + 1;
      }
      assert filters[..i] == filters;
    }

    /** `query_by_tag`: one stripped profile per tag that names a user, in tag order. */
    method QueryByTag(tags: seq<string>) returns (result: seq<User>)
      ensures result == Found(users, TagFilters(tags))
      ensures |result| <= |tags| && forall u :: u in result ==> Stripped(u)
    {
      FoundBounded(users, TagFilters(tags));
      result := QueryBy(TagFilters(tags));
    }

    /** `query_by_uuid`: one stripped profile per id that names a user, in id order. */
    method QueryByUuid(ids: seq<Uuid>) returns (result: seq<User>)
      ensures result == Found(users, IdFilters(ids))
      ensures |result| <= |ids| && forall u :: u in result ==> Stripped(u)
    {
      FoundBounded(users, IdFilters(ids));
      result := QueryBy(IdFilters(ids));
    }

    /** One of the invisible writes: logged when it succeeds, reported when it fails. */
    method Write(w: StoreWrite) returns (r: Outcome)
      modifies this`writes
      ensures writeError(w).Some? ==> r == Fail(writeError(w).value) && writes == old(writes)
      ensures writeError(w).None? ==> r == Pass && writes == old(writes) + [w]
    {
      match writeError(w)
      case Some(e) => r := Fail(e);
      case None =>
        writes := writes + [w];
        r := Pass;
    }
  }
}
