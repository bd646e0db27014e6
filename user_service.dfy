/** `UserService`: account lookups through the store. */
module UserService {
  import opened Wrappers
  import opened UserConfigurationModel
  import opened Firestore

  const GetUserFailure := "Failed to get user: "
  const ExistenceFailure := "Failed to check user existence: "
  const CreateFailure := "Failed to create user: "
  const GetUsersFailure := "Failed to get users by emails: "

  /** A queried document read through `UserConfiguration.fromFirestore`; query results always carry data. */
  function ToUser(d: StoredUser): (u: UserConfiguration)
    ensures ToFirestore(u) == d.data && u.id == d.id
  {
    FromFirestore(UserConfigurationSnapshot(d.id, Some(d.data))).value
  }

  /** What `getUserByEmail` returns for a store holding `docs`. */
  function LookupUser(docs: seq<StoredUser>, email: string): Option<UserConfiguration> {
    match FirstWithEmail(docs, email)
    case None => None
    case Some(d) => Some(ToUser(d))
  }

  /** The lookup finds nothing iff no configuration has exactly that email; what it finds is a stored one with that email. */
  lemma LookupUserFinds(docs: seq<StoredUser>, email: string)
    ensures LookupUser(docs, email).None? <==> forall k :: 0 <= k < |docs| ==> docs[k].data.email != email
    ensures LookupUser(docs, email).Some? ==>
      var u := LookupUser(docs, email).value;
      u.email == email && StoredUser(u.id, ToFirestore(u)) in docs
  {
  }

  /** The users `getUsersByEmails` keeps for one looked-up email: the account, if it exists and has notifications on. */
  function EnabledUser(docs: seq<StoredUser>, email: string): seq<UserConfiguration> {
    match LookupUser(docs, email)
    case Some(u) => if u.isEnableNotifications then [u] else []
    case None => []
  }

  /** What `getUsersByEmails` returns: one lookup per input email, in input order. */
  function RegisteredUsers(docs: seq<StoredUser>, emails: seq<string>): (users: seq<UserConfiguration>)
    ensures |users| <= |emails|
  {
    if |emails| == 0 then []
    else RegisteredUsers(docs, emails[..|emails| - 1]) + EnabledUser(docs, emails[|emails| - 1])
  }

  /** The lookup distributes over concatenation: output order follows input order, and every occurrence is looked up. */
  lemma {:induction false} RegisteredUsersAppend(docs: seq<StoredUser>, a: seq<string>, b: seq<string>)
    ensures RegisteredUsers(docs, a + b) == RegisteredUsers(docs, a) + RegisteredUsers(docs, b)
    decreases |b|
  {
    if |b| == 0 {
      assert a + b == a;
    } else {
      assert (a + b)[..|a + b| - 1] == a + b[..|b| - 1];
      RegisteredUsersAppend(docs, a, b[..|b| - 1]);
    }
  }

  lemma EnabledUserMembers(docs: seq<StoredUser>, email: string, u: UserConfiguration)
    ensures u in EnabledUser(docs, email) <==> u.isEnableNotifications && LookupUser(docs, email) == Some(u)
  {
  }

  /** Some input email looks `u` up. */
  ghost predicate LookedUp(docs: seq<StoredUser>, emails: seq<string>, u: UserConfiguration) {
    exists k :: 0 <= k < |emails| && LookupUser(docs, emails[k]) == Some(u)
  }

  lemma {:induction false} RegisteredUsersSound(docs: seq<StoredUser>, emails: seq<string>, u: UserConfiguration)
    requires u in RegisteredUsers(docs, emails)
    ensures u.isEnableNotifications && LookedUp(docs, emails, u)
  {
    var init, last := emails[..|emails| - 1], emails[|emails| - 1];
    if u in RegisteredUsers(docs, init) {
      RegisteredUsersSound(docs, init, u);
      var k :| 0 <= k < |init| && LookupUser(docs, init[k]) == Some(u);
      assert emails[k] == init[k];
    } else {
      EnabledUserMembers(docs, last, u);
      assert emails[|emails| - 1] == last;
    }
  }

  lemma {:induction false} RegisteredUsersCompleteAt(docs: seq<StoredUser>, emails: seq<string>, k: nat, u: UserConfiguration)
    requires k < |emails| && u.isEnableNotifications && LookupUser(docs, emails[k]) == Some(u)
    ensures u in RegisteredUsers(docs, emails)
    decreases |emails|
  {
    var init, last := emails[..|emails| - 1], emails[|emails| - 1];
    assert RegisteredUsers(docs, emails) == RegisteredUsers(docs, init) + EnabledUser(docs, last);
    if k < |init| {
      assert init[k] == emails[k];
      RegisteredUsersCompleteAt(docs, init, k, u);
      assert u in RegisteredUsers(docs, init);
    } else {
      assert last == emails[k];
      assert EnabledUser(docs, last) == [u];
    }
  }

  lemma RegisteredUsersComplete(docs: seq<StoredUser>, emails: seq<string>, u: UserConfiguration)
    requires u.isEnableNotifications && LookedUp(docs, emails, u)
    ensures u in RegisteredUsers(docs, emails)
  {
    var k :| 0 <= k < |emails| && LookupUser(docs, emails[k]) == Some(u);
    RegisteredUsersCompleteAt(docs, emails, k, u);
  }

  /** A user is returned iff some input email looks it up and its notifications are on. */
  lemma RegisteredUsersMembers(docs: seq<StoredUser>, emails: seq<string>, u: UserConfiguration)
    ensures u in RegisteredUsers(docs, emails) <==> u.isEnableNotifications && LookedUp(docs, emails, u)
  {
    if u in RegisteredUsers(docs, emails) {
      RegisteredUsersSound(docs, emails, u);
    }
    if u.isEnableNotifications && LookedUp(docs, emails, u) {
      RegisteredUsersComplete(docs, emails, u);
    }
  }

  /** Every returned user is a stored account with notifications on, whose email is one of the inputs. */
  lemma RegisteredUsersAreEnabled(docs: seq<StoredUser>, emails: seq<string>)
    ensures forall u :: u in RegisteredUsers(docs, emails) ==>
      u.isEnableNotifications && u.email in emails && StoredUser(u.id, ToFirestore(u)) in docs
  {
    forall u | u in RegisteredUsers(docs, emails)
      ensures u.isEnableNotifications && u.email in emails && StoredUser(u.id, ToFirestore(u)) in docs
    {
      RegisteredUsersMembers(docs, emails, u);
      var k :| 0 <= k < |emails| && LookupUser(docs, emails[k]) == Some(u);
      LookupUserFinds(docs, emails[k]);
    }
  }

  /** `userExistsByEmail`: true iff some configuration has exactly that email, whatever its notification flag. */
  method UserExistsByEmail(store: FirestoreClient, email: string) returns (r: Result<bool>)
    ensures r.Err? <==> email in store.unavailable
    ensures r.Ok? ==> (r.value <==> exists k :: 0 <= k < |store.userConfigurations| && store.userConfigurations[k].data.email == email)
    ensures r.Err? ==> ExistenceFailure <= r.error
  {
    var userDoc := store.GetUserByEmail(email);
    if userDoc.Err? {
      return Err(Rethrown(ExistenceFailure, userDoc.error));
    }
    r := Ok(userDoc.value.Some?);
  }

  /** `getUserByEmail`: the first account with exactly that email, or null. */
  method GetUserByEmail(store: FirestoreClient, email: string) returns (r: Result<Option<UserConfiguration>>)
    ensures r.Err? <==> email in store.unavailable
    ensures r.Ok? ==> r.value == LookupUser(store.userConfigurations, email)
    ensures r.Err? ==> GetUserFailure <= r.error
  {
    var userDoc := store.GetUserByEmail(email);
    if userDoc.Err? {
      return Err(Rethrown(GetUserFailure, userDoc.error));
    }
    if userDoc.value.None? {
      return Ok(None);
    }
    r := Ok(Some(ToUser(userDoc.value.value)));
  }

  /**
   * `createUserConfiguration`: the role defaults to user; the uuid the
   * constructor draws is dropped by `toFirestore`, so the document gets the
   * store's own fresh id `autoId`, added after the stored ones.
   */
  method CreateUserConfiguration(
    store: FirestoreClient, email: string, userId: string, role: Option<Role>,
    isEnableNotifications: Option<bool>, freshUuid: string, autoId: string) returns (id: string)
    requires forall d :: d in store.userConfigurations ==> d.id != autoId
    modifies store
    ensures id == autoId
    ensures store.userConfigurations == old(store.userConfigurations) +
      [StoredUser(autoId, UserConfigurationData(email, userId, role.GetOr(User), isEnableNotifications == Some(true), None))]
    ensures store.userConfigurations == Upsert(old(store.userConfigurations), autoId,
      UserConfigurationData(email, userId, role.GetOr(User), isEnableNotifications == Some(true), None))
    ensures store.events == old(store.events) && store.unavailable == old(store.unavailable)
  {
    var newUser := NewUserConfiguration(email, userId, role.GetOr(User), None, isEnableNotifications, None, freshUuid);
    id := store.CreateUserConfigurationDocument(ToFirestore(newUser), None, autoId);
  }

  /** `getUsersByEmails`: a lookup per email in order, keeping accounts with notifications on; a failed lookup aborts. */
  method GetUsersByEmails(store: FirestoreClient, emails: seq<string>) returns (r: Result<seq<UserConfiguration>>)
    ensures r.Err? <==> exists k :: 0 <= k < |emails| && emails[k] in store.unavailable
    ensures r.Ok? ==> r.value == RegisteredUsers(store.userConfigurations, emails)
    ensures r.Err? ==> GetUsersFailure <= r.error
  {
    var users: seq<UserConfiguration> := [];
    var i := 0;
    while i < |emails|
      invariant 0 <= i <= |emails|
      invariant forall k :: 0 <= k < i ==> emails[k] !in store.unavailable
      invariant users == RegisteredUsers(store.userConfigurations, emails[..i])
    {
      var user := GetUserByEmail(store, emails[i]);
      if user.Err? {
        return Err(Rethrown(GetUsersFailure, user.error));
      }
      if user.value.Some? && user.value.value.isEnableNotifications {
        users := users + [user.value.value];
      }
      assert emails[..i + 1][..i] == emails[..i];
      i := i + 1;
    }
    assert emails[..i] == emails;
    r := Ok(users);
  }
}
