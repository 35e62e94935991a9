/**
 * The local account store and the operations that write it
 * (`invenio_cern_sync/users/api.py`): updating an existing account from a
 * canonical user record, and creating a new one.
 *
 * The three tables are User, UserIdentity (the person id under which a user
 * logs in through the CERN remote app) and RemoteAccount (per-client extra
 * data). Their rows are objects updated in place, as the ORM's are; a
 * database commit is a counter. Each method is stated against a function on
 * plain row values, and the properties are proved about those functions.
 */
module Accounts {
  import opened Results
  import opened Json
  import opened Text
  import opened Queries
  import Serializer
  import Utils

  type InvenioUser = Serializer.InvenioUser

  // ---------------------------------------------------------------------
  // Rows as values

  datatype UserRow = UserRow(
    id: nat,
    email: string,
    username: string,
    active: bool,
    userProfile: Dict,
    preferences: Dict,
    confirmed: bool)

  datatype IdentityRow = IdentityRow(id: string, loginMethod: string, idUser: nat)

  datatype AccountRow = AccountRow(userId: nat, clientId: string, extraData: Dict)

  /** The three tables at one moment. */
  datatype Tables = Tables(users: seq<UserRow>, identities: seq<IdentityRow>, accounts: seq<AccountRow>)

  /** Every identity and every remote account belongs to a stored user, and user ids are row numbers. */
  predicate Consistent(t: Tables)
  {
    && (forall i :: 0 <= i < |t.users| ==> t.users[i].id == i)
    && (forall i :: 0 <= i < |t.identities| ==> t.identities[i].idUser < |t.users|)
    && (forall i :: 0 <= i < |t.accounts| ==> t.accounts[i].userId < |t.users|)
  }

  // ---------------------------------------------------------------------
  // `_update_user`

  /** The test `_update_user` applies before rewriting email, username and active. */
  predicate LoginDiffers(row: UserRow, rec: InvenioUser)
  {
    row.email != rec.email || row.username != Lower(rec.username) || row.active != rec.active
  }

  /**
   * The test `_update_user` applies to user_profile and to preferences: some
   * incoming key has a value other than the local one, a locally absent key
   * reading as "".
   */
  predicate IncomingDiffers(local: Dict, incoming: Dict)
  {
    exists k :: k in incoming && GetOr(local, k, Str("")) != incoming[k]
  }

  /** Diff, then shallow-merge: the rule for user_profile and preferences. */
  function MergeWhenDiffers(local: Dict, incoming: Dict): Dict
  {
    if IncomingDiffers(local, incoming) then Merge(local, incoming) else local
  }

  function UserAfterUpdate(row: UserRow, rec: InvenioUser): UserRow
  {
    var login :=
      if LoginDiffers(row, rec) then row.(email := rec.email, username := rec.username, active := rec.active)
      else row;
    login.(userProfile := MergeWhenDiffers(row.userProfile, rec.userProfile),
           preferences := MergeWhenDiffers(row.preferences, rec.preferences))
  }

  /**
   * After the diff-then-merge, every incoming key reads as its incoming value
   * (absent counting as ""), local-only keys are kept, no other key appears,
   * the dict is rewritten exactly when some incoming key differed, and a
   * second application finds nothing to do.
   */
  lemma MergeWhenDiffersMeaning(local: Dict, incoming: Dict)
    ensures forall k :: k in incoming ==> GetOr(MergeWhenDiffers(local, incoming), k, Str("")) == incoming[k]
    ensures forall k :: k in local && k !in incoming ==> k in MergeWhenDiffers(local, incoming) && MergeWhenDiffers(local, incoming)[k] == local[k]
    ensures local.Keys <= MergeWhenDiffers(local, incoming).Keys <= local.Keys + incoming.Keys
    ensures MergeWhenDiffers(local, incoming) == local <==> !IncomingDiffers(local, incoming)
    ensures !IncomingDiffers(MergeWhenDiffers(local, incoming), incoming)
  {
    var r := MergeWhenDiffers(local, incoming);
    if IncomingDiffers(local, incoming) {
      var k :| k in incoming && GetOr(local, k, Str("")) != incoming[k];
      assert r[k] == incoming[k];
      assert r != local;
    }
  }

  /**
   * An incoming "" for a key the local dict lacks is not a difference by
   * itself: the dict is rewritten exactly when some other incoming key
   * differs, and only then is the "" stored, whereas a plain merge would
   * always store it.
   */
  lemma EmptyIncomingValueNotStored(local: Dict, incoming: Dict, k: string)
    requires k !in local && k in incoming && incoming[k] == Str("")
    ensures IncomingDiffers(local, incoming) <==> IncomingDiffers(local, incoming - {k})
    ensures !IncomingDiffers(local, incoming - {k}) ==> k !in MergeWhenDiffers(local, incoming)
    ensures IncomingDiffers(local, incoming - {k}) ==>
      k in MergeWhenDiffers(local, incoming) && MergeWhenDiffers(local, incoming)[k] == Str("")
    ensures k in Merge(local, incoming)
  {
    var rest := incoming - {k};
    if IncomingDiffers(local, incoming) {
      var j :| j in incoming && GetOr(local, j, Str("")) != incoming[j];
      assert j != k;
      assert j in rest && rest[j] == incoming[j];
    }
    if IncomingDiffers(local, rest) {
      var j :| j in rest && GetOr(local, j, Str("")) != rest[j];
      assert j in incoming && incoming[j] == rest[j];
    }
  }

  /**
   * The update diff of `_update_user` looks only at incoming keys and treats
   * absent as "", whereas `_is_different` compares the union of keys and
   * treats absent as None. Each can report a difference the other misses.
   */
  lemma IncomingDiffersVersusIsDifferent(local: Dict, incoming: Dict)
    requires forall k :: k in incoming ==> incoming[k] != Null
    ensures IncomingDiffers(local, incoming) ==> Utils.IsDifferent(local, incoming)
    ensures Utils.IsDifferent(map["timezone" := Str("Europe/Zurich")], map[])
    ensures !IncomingDiffers(map["timezone" := Str("Europe/Zurich")], map[])
    ensures !Utils.IsDifferent(map[], map["mailbox" := Null])
    ensures IncomingDiffers(map[], map["mailbox" := Null])
  {
    if IncomingDiffers(local, incoming) {
      var k :| k in incoming && GetOr(local, k, Str("")) != incoming[k];
      assert k in local.Keys + incoming.Keys && Get(local, k) != Get(incoming, k);
    }
    var tz: Dict := map["timezone" := Str("Europe/Zurich")];
    var none: Dict := map[];
    assert "timezone" in tz.Keys + none.Keys;
    assert "mailbox" in map["mailbox" := Null];
  }

  /**
   * `_update_user`: email, username and active are rewritten together and
   * only when one of them differs; afterwards email and active equal the
   * incoming ones and the username equals the incoming one up to case; the
   * id and the confirmation are untouched.
   */
  lemma UserAfterUpdateMeaning(row: UserRow, rec: InvenioUser)
    ensures LoginDiffers(row, rec) ==>
      UserAfterUpdate(row, rec).email == rec.email
      && UserAfterUpdate(row, rec).username == rec.username
      && UserAfterUpdate(row, rec).active == rec.active
    ensures !LoginDiffers(row, rec) ==>
      UserAfterUpdate(row, rec).email == row.email
      && UserAfterUpdate(row, rec).username == row.username
      && UserAfterUpdate(row, rec).active == row.active
    ensures UserAfterUpdate(row, rec).email == rec.email
    ensures UserAfterUpdate(row, rec).active == rec.active
    ensures Lower(UserAfterUpdate(row, rec).username) == Lower(rec.username)
    ensures UserAfterUpdate(row, rec).id == row.id
    ensures UserAfterUpdate(row, rec).confirmed == row.confirmed
    ensures UserAfterUpdate(row, rec).userProfile == MergeWhenDiffers(row.userProfile, rec.userProfile)
    ensures UserAfterUpdate(row, rec).preferences == MergeWhenDiffers(row.preferences, rec.preferences)
  {
    LowerIsLower(rec.username);
  }

  /**
   * The username is compared lower-cased but stored as given, so once an
   * incoming username with an upper-case letter has been written, every
   * later run with the same record finds a difference and writes again.
   */
  lemma MixedCaseUsernameAlwaysRewritten(row: UserRow, rec: InvenioUser)
    requires LoginDiffers(row, rec)
    requires Lower(rec.username) != rec.username
    ensures LoginDiffers(UserAfterUpdate(row, rec), rec)
  {
  }

  /** Updating a user twice from the same record leaves it as updating it once. */
  lemma UserUpdateIdempotent(row: UserRow, rec: InvenioUser)
    ensures UserAfterUpdate(UserAfterUpdate(row, rec), rec) == UserAfterUpdate(row, rec)
  {
    MergeWhenDiffersMeaning(row.userProfile, rec.userProfile);
    MergeWhenDiffersMeaning(row.preferences, rec.preferences);
    var once := UserAfterUpdate(row, rec);
    assert MergeWhenDiffers(once.userProfile, rec.userProfile) == once.userProfile;
    assert MergeWhenDiffers(once.preferences, rec.preferences) == once.preferences;
  }

  // ---------------------------------------------------------------------
  // `_update_useridentity`

  function IdentityAfterUpdate(row: IdentityRow, rec: InvenioUser): IdentityRow
  {
    if row.id != rec.userIdentityId then row.(id := rec.userIdentityId) else row
  }

  /** The identity then carries the incoming id, keeps its method and user, and is rewritten only if the id differed. */
  lemma IdentityAfterUpdateMeaning(row: IdentityRow, rec: InvenioUser)
    ensures IdentityAfterUpdate(row, rec).id == rec.userIdentityId
    ensures IdentityAfterUpdate(row, rec).loginMethod == row.loginMethod
    ensures IdentityAfterUpdate(row, rec).idUser == row.idUser
    ensures IdentityAfterUpdate(row, rec) == row <==> row.id == rec.userIdentityId
  {
  }

  // ---------------------------------------------------------------------
  // `_update_remote_account`

  /** The filter of `RemoteAccount.get(user_id, client_id)`. */
  function OwnedBy(userId: nat, clientId: string): AccountRow -> bool
  {
    (a: AccountRow) => a.userId == userId && a.clientId == clientId
  }

  function AccountsAfterUpdate(accounts: seq<AccountRow>, userId: nat, clientId: string, extra: Dict): seq<AccountRow>
  {
    match First(accounts, OwnedBy(userId, clientId))
    case None => accounts + [AccountRow(userId, clientId, extra)]
    case Some(i) => accounts[i := accounts[i].(extraData := Merge(accounts[i].extraData, extra))]
  }

  /**
   * `_update_remote_account`: afterwards the user has an account for the
   * client. If there was none, it is a new last row holding exactly the new
   * extra data; otherwise the account found is updated in place with the new
   * keys, keeping its other keys (such as keycloak_id), and every other row
   * is unchanged.
   */
  lemma AccountsAfterUpdateMeaning(accounts: seq<AccountRow>, userId: nat, clientId: string, extra: Dict)
    ensures First(accounts, OwnedBy(userId, clientId)).None? ==>
      AccountsAfterUpdate(accounts, userId, clientId, extra) == accounts + [AccountRow(userId, clientId, extra)]
    ensures First(accounts, OwnedBy(userId, clientId)).Some? ==>
      var i := First(accounts, OwnedBy(userId, clientId)).value;
      var r := AccountsAfterUpdate(accounts, userId, clientId, extra);
      |r| == |accounts|
      && (forall j :: 0 <= j < |accounts| && j != i ==> r[j] == accounts[j])
      && r[i].userId == userId && r[i].clientId == clientId
      && r[i].extraData.Keys == accounts[i].extraData.Keys + extra.Keys
      && (forall k :: k in extra ==> r[i].extraData[k] == extra[k])
      && (forall k :: k in accounts[i].extraData && k !in extra ==> r[i].extraData[k] == accounts[i].extraData[k])
    ensures First(AccountsAfterUpdate(accounts, userId, clientId, extra), OwnedBy(userId, clientId)).Some?
  {
    var r := AccountsAfterUpdate(accounts, userId, clientId, extra);
    if First(accounts, OwnedBy(userId, clientId)).None? {
      assert OwnedBy(userId, clientId)(r[|accounts|]);
    } else {
      var i := First(accounts, OwnedBy(userId, clientId)).value;
      assert OwnedBy(userId, clientId)(r[i]);
    }
  }

  /** Updating the remote account twice with the same data leaves the table as updating it once. */
  lemma AccountsUpdateIdempotent(accounts: seq<AccountRow>, userId: nat, clientId: string, extra: Dict)
    ensures AccountsAfterUpdate(AccountsAfterUpdate(accounts, userId, clientId, extra), userId, clientId, extra)
         == AccountsAfterUpdate(accounts, userId, clientId, extra)
  {
    var p := OwnedBy(userId, clientId);
    var once := AccountsAfterUpdate(accounts, userId, clientId, extra);
    match First(accounts, p)
    case None =>
      assert forall j :: 0 <= j < |accounts| ==> once[j] == accounts[j] && !p(once[j]);
      assert p(once[|accounts|]);
      assert First(once, p) == Some(|accounts|);
      MergeIdempotent(map[], extra);
      assert Merge(extra, extra) == extra;
    case Some(i) =>
      assert forall j :: 0 <= j < i ==> once[j] == accounts[j];
      assert p(once[i]);
      assert First(once, p) == Some(i);
      MergeIdempotent(accounts[i].extraData, extra);
  }

  // ---------------------------------------------------------------------
  // `update_existing_user`

  /** What `update_existing_user` touches: one user, one identity, and the remote-account table. */
  datatype Local = Local(user: UserRow, identity: IdentityRow, accounts: seq<AccountRow>)

  function LocalAfterUpdate(s: Local, rec: InvenioUser, clientId: string): Local
  {
    Local(UserAfterUpdate(s.user, rec),
          IdentityAfterUpdate(s.identity, rec),
          AccountsAfterUpdate(s.accounts, s.user.id, clientId, rec.remoteAccountExtraData))
  }

  /** Running `update_existing_user` twice with the same record leaves the same state as running it once. */
  lemma UpdateExistingUserIdempotent(s: Local, rec: InvenioUser, clientId: string)
    ensures LocalAfterUpdate(LocalAfterUpdate(s, rec, clientId), rec, clientId) == LocalAfterUpdate(s, rec, clientId)
  {
    UserUpdateIdempotent(s.user, rec);
    AccountsUpdateIdempotent(s.accounts, s.user.id, clientId, rec.remoteAccountExtraData);
  }

  // ---------------------------------------------------------------------
  // Rows as objects

  class User {
    const id: nat
    var email: string
    var username: string
    var active: bool
    var userProfile: Dict
    var preferences: Dict
    var confirmed: bool

    /** `User(email=..., username=..., active=..., user_profile=...)`, not yet confirmed. */
    constructor (id: nat, email: string, username: string, active: bool, userProfile: Dict)
      ensures Row() == UserRow(id, email, username, active, userProfile, map[], false)
    {
      this.id := id;
      this.email := email;
      this.username := username;
      this.active := active;
      this.userProfile := userProfile;
      this.preferences := map[];
      this.confirmed := false;
    }

    function Row(): UserRow
      reads this
    {
      UserRow(id, email, username, active, userProfile, preferences, confirmed)
    }
  }

  class UserIdentity {
    var id: string
    const loginMethod: string
    const idUser: nat

    constructor (id: string, loginMethod: string, idUser: nat)
      ensures Row() == IdentityRow(id, loginMethod, idUser)
    {
      this.id := id;
      this.loginMethod := loginMethod;
      this.idUser := idUser;
    }

    function Row(): IdentityRow
      reads this
    {
      IdentityRow(id, loginMethod, idUser)
    }
  }

  class RemoteAccount {
    const userId: nat
    const clientId: string
    var extraData: Dict

    constructor (userId: nat, clientId: string, extraData: Dict)
      ensures Row() == AccountRow(userId, clientId, extraData)
    {
      this.userId := userId;
      this.clientId := clientId;
      this.extraData := extraData;
    }

    function Row(): AccountRow
      reads this
    {
      AccountRow(userId, clientId, extraData)
    }
  }

  /** The database session: the three tables and the number of commits so far. */
  class Store {
    var users: seq<User>
    var identities: seq<UserIdentity>
    var accounts: seq<RemoteAccount>
    var commits: nat

    /** No row object is listed twice. */
    predicate Valid()
      reads this
    {
      && (forall i, j :: 0 <= i < j < |users| ==> users[i] != users[j])
      && (forall i, j :: 0 <= i < j < |identities| ==> identities[i] != identities[j])
      && (forall i, j :: 0 <= i < j < |accounts| ==> accounts[i] != accounts[j])
    }

    function UserRows(): (r: seq<UserRow>)
      reads this`users, users
      ensures |r| == |users| && forall i :: 0 <= i < |users| ==> r[i] == users[i].Row()
    {
      var rows := users;
      seq(|rows|, i reads rows requires 0 <= i < |rows| => rows[i].Row())
    }

    function IdentityRows(): (r: seq<IdentityRow>)
      reads this`identities, identities
      ensures |r| == |identities| && forall i :: 0 <= i < |identities| ==> r[i] == identities[i].Row()
    {
      var rows := identities;
      seq(|rows|, i reads rows requires 0 <= i < |rows| => rows[i].Row())
    }

    function AccountRows(): (r: seq<AccountRow>)
      reads this`accounts, accounts
      ensures |r| == |accounts| && forall i :: 0 <= i < |accounts| ==> r[i] == accounts[i].Row()
    {
      var rows := accounts;
      seq(|rows|, i reads rows requires 0 <= i < |rows| => rows[i].Row())
    }

    function Snapshot(): Tables
      reads this`users, this`identities, this`accounts, users, identities, accounts
    {
      Tables(UserRows(), IdentityRows(), AccountRows())
    }

    constructor ()
      ensures Valid() && Snapshot() == Tables([], [], []) && commits == 0
    {
      users, identities, accounts, commits := [], [], [], 0;
    }
  }

  /** `_update_user`: rewrites the user object in place. */
  method UpdateUser(user: User, rec: InvenioUser)
    modifies user
    ensures user.Row() == UserAfterUpdate(old(user.Row()), rec)
  {
    if LoginDiffers(user.Row(), rec) {
      user.email := rec.email;
      user.username := rec.username;
      user.active := rec.active;
    }
    if IncomingDiffers(user.userProfile, rec.userProfile) {
      user.userProfile := Merge(user.userProfile, rec.userProfile);
    }
    if IncomingDiffers(user.preferences, rec.preferences) {
      user.preferences := Merge(user.preferences, rec.preferences);
    }
  }

  /** `_update_useridentity`: writes the identity id only when it differs, and says whether it did. */
  method UpdateUserIdentity(identity: UserIdentity, rec: InvenioUser) returns (changed: bool)
    modifies identity
    ensures identity.Row() == IdentityAfterUpdate(old(identity.Row()), rec)
    ensures changed <==> old(identity.id) != rec.userIdentityId
  {
    changed := identity.id != rec.userIdentityId;
    if changed {
      identity.id := rec.userIdentityId;
    }
  }

  /** `_update_remote_account`: creates the account if the user has none for the client, else updates its extra data in place. */
  method UpdateRemoteAccount(store: Store, user: User, rec: InvenioUser, clientId: string)
    requires store.Valid()
    modifies store, store.accounts
    ensures store.Valid()
    ensures store.AccountRows() == AccountsAfterUpdate(old(store.AccountRows()), user.id, clientId, rec.remoteAccountExtraData)
    ensures store.users == old(store.users) && store.identities == old(store.identities) && store.commits == old(store.commits)
  {
    var rows := store.AccountRows();
    var found := First(rows, OwnedBy(user.id, clientId));
    if found.None? {
      var account := new RemoteAccount(user.id, clientId, rec.remoteAccountExtraData);
      store.accounts := store.accounts + [account];
      assert store.AccountRows() == rows + [account.Row()];
    } else {
      var account := store.accounts[found.value];
      account.extraData := account.extraData + rec.remoteAccountExtraData;
      assert forall j :: 0 <= j < |rows| && j != found.value ==> store.accounts[j] != account;
      assert store.AccountRows() == rows[found.value := rows[found.value].(extraData := Merge(rows[found.value].extraData, rec.remoteAccountExtraData))];
    }
  }

  /** `update_existing_user`: the three updates in order. */
  method UpdateExistingUser(store: Store, user: User, identity: UserIdentity, rec: InvenioUser, clientId: string)
    requires store.Valid()
    modifies user, identity, store, store.accounts
    ensures store.Valid()
    ensures Local(user.Row(), identity.Row(), store.AccountRows())
         == LocalAfterUpdate(old(Local(user.Row(), identity.Row(), store.AccountRows())), rec, clientId)
    ensures store.users == old(store.users) && store.identities == old(store.identities) && store.commits == old(store.commits)
  {
    ghost var userRow, identityRow, accountRows := user.Row(), identity.Row(), store.AccountRows();
    UpdateUser(user, rec);
    assert store.AccountRows() == accountRows;
    var _ := UpdateUserIdentity(identity, rec);
    assert user.Row() == UserAfterUpdate(userRow, rec) && store.AccountRows() == accountRows;
    UpdateRemoteAccount(store, user, rec, clientId);
    assert user.Row() == UserAfterUpdate(userRow, rec) && identity.Row() == IdentityAfterUpdate(identityRow, rec);
  }

  // ---------------------------------------------------------------------
  // `InvenioUserCreator`

  /** The exceptions `create` raises. */
  datatype CreateFault =
    | NotSubscriptable         // TypeError: 'User' object is not subscriptable
    | DuplicateKeyword(key: string)  // TypeError: dict() got multiple values for keyword argument

  /** `remote_app_name or default`: None and "" fall back to the default. */
  function OrDefault(name: Option<string>, default: string): string
  {
    if name.Some? && name.value != "" then name.value else default
  }

  /**
   * `dict(keycloak_id=username, **extra)`: the username under keycloak_id
   * and every key of the record's extra data; Python refuses the call when
   * the extra data has its own keycloak_id.
   */
  function NewExtraData(rec: InvenioUser): (r: Result<Dict, CreateFault>)
    ensures r.Err? <==> "keycloak_id" in rec.remoteAccountExtraData
    ensures r.Err? ==> r.error == DuplicateKeyword("keycloak_id")
    ensures r.Ok? ==> r.value.Keys == {"keycloak_id"} + rec.remoteAccountExtraData.Keys
    ensures r.Ok? ==> r.value["keycloak_id"] == Str(rec.username)
    ensures r.Ok? ==> forall k :: k in rec.remoteAccountExtraData ==> r.value[k] == rec.remoteAccountExtraData[k]
  {
    if "keycloak_id" in rec.remoteAccountExtraData then Err(DuplicateKeyword("keycloak_id"))
    else Ok(map["keycloak_id" := Str(rec.username)] + rec.remoteAccountExtraData)
  }

  /** The row `_create_user` writes: the next id, not yet confirmed, default preferences. */
  function NewUserRow(t: Tables, rec: InvenioUser, active: bool): UserRow
  {
    UserRow(|t.users|, rec.email, rec.username, active, rec.userProfile, map[], false)
  }

  /** `create` as written: the user row is written and committed, then reading the record from the User object raises. */
  function CreatedAsWritten(t: Tables, rec: InvenioUser, active: bool): (Tables, Result<nat, CreateFault>)
  {
    (t.(users := t.users + [NewUserRow(t, rec, active)]), Err(NotSubscriptable))
  }

  /**
   * `create` as intended: the user, then its identity under the remote app's
   * name, then its remote account; the user is confirmed last. When the
   * extra data cannot be built the identity has already been added.
   */
  function Created(t: Tables, rec: InvenioUser, active: bool, autoConfirm: bool, clientId: string, loginMethod: string)
    : (Tables, Result<nat, CreateFault>)
  {
    var user := NewUserRow(t, rec, active);
    var identity := IdentityRow(rec.userIdentityId, loginMethod, user.id);
    match NewExtraData(rec)
    case Err(e) => (Tables(t.users + [user], t.identities + [identity], t.accounts), Err(e))
    case Ok(extra) =>
      (Tables(t.users + [user.(confirmed := autoConfirm)], t.identities + [identity],
              t.accounts + [AccountRow(user.id, clientId, extra)]),
       Ok(user.id))
  }

  /**
   * As written, `create` leaves a committed user with no identity and no
   * remote account, so the next sync cannot find it by person id.
   */
  lemma CreateAsWrittenOrphansUser(t: Tables, rec: InvenioUser, active: bool, clientId: string)
    requires Consistent(t)
    ensures CreatedAsWritten(t, rec, active).1 == Err(NotSubscriptable)
    ensures |CreatedAsWritten(t, rec, active).0.users| == |t.users| + 1
    ensures forall i :: 0 <= i < |CreatedAsWritten(t, rec, active).0.identities| ==>
      CreatedAsWritten(t, rec, active).0.identities[i].idUser != |t.users|
    ensures First(CreatedAsWritten(t, rec, active).0.accounts, OwnedBy(|t.users|, clientId)).None?
  {
  }

  /**
   * A successful `create` returns the new user's id; the user holds the
   * record's email, username and profile and is confirmed when asked; its
   * one identity carries the person id and the remote app's name; and its
   * one remote account for the client holds keycloak_id = username plus the
   * record's extra data. The tables stay consistent.
   */
  lemma CreatedMeaning(t: Tables, rec: InvenioUser, active: bool, autoConfirm: bool, clientId: string, loginMethod: string)
    requires Consistent(t)
    requires "keycloak_id" !in rec.remoteAccountExtraData
    ensures var (t', r) := Created(t, rec, active, autoConfirm, clientId, loginMethod);
      && r == Ok(|t.users|)
      && Consistent(t')
      && t'.users == t.users + [UserRow(|t.users|, rec.email, rec.username, active, rec.userProfile, map[], autoConfirm)]
      && t'.identities == t.identities + [IdentityRow(rec.userIdentityId, loginMethod, |t.users|)]
      && First(t'.accounts, OwnedBy(|t.users|, clientId)) == Some(|t.accounts|)
      && t'.accounts[|t.accounts|].extraData["keycloak_id"] == Str(rec.username)
      && (forall k :: k in rec.remoteAccountExtraData ==> t'.accounts[|t.accounts|].extraData[k] == rec.remoteAccountExtraData[k])
  {
    var (t', r) := Created(t, rec, active, autoConfirm, clientId, loginMethod);
    assert forall i :: 0 <= i < |t.accounts| ==> t'.accounts[i] == t.accounts[i];
    assert OwnedBy(|t.users|, clientId)(t'.accounts[|t.accounts|]);
  }

  /**
   * A later update from the same record keeps the keycloak_id that `create`
   * wrote, since the serialized extra data never carries that key.
   */
  lemma CreateThenUpdateKeepsKeycloakId(t: Tables, rec: InvenioUser, active: bool, autoConfirm: bool, clientId: string, loginMethod: string)
    requires Consistent(t)
    requires "keycloak_id" !in rec.remoteAccountExtraData
    ensures var t' := Created(t, rec, active, autoConfirm, clientId, loginMethod).0;
      var after := AccountsAfterUpdate(t'.accounts, |t.users|, clientId, rec.remoteAccountExtraData);
      after[|t.accounts|].extraData["keycloak_id"] == Str(rec.username)
  {
    CreatedMeaning(t, rec, active, autoConfirm, clientId, loginMethod);
    var t' := Created(t, rec, active, autoConfirm, clientId, loginMethod).0;
    AccountsAfterUpdateMeaning(t'.accounts, |t.users|, clientId, rec.remoteAccountExtraData);
  }

  class InvenioUserCreator {
    const appClientId: string
    const remoteAppName: string

    /** `remote_app_name or current_app.config[...]`: the configured name stands in for None and "". */
    constructor (appClientId: string, remoteAppName: Option<string>, configuredRemoteAppName: string)
      ensures this.appClientId == appClientId
      ensures remoteAppName.Some? && remoteAppName.value != "" ==> this.remoteAppName == remoteAppName.value
      ensures remoteAppName.None? || remoteAppName.value == "" ==> this.remoteAppName == configuredRemoteAppName
    {
      this.appClientId := appClientId;
      this.remoteAppName := OrDefault(remoteAppName, configuredRemoteAppName);
    }

    /** `_create_user`: adds the user row and commits, which assigns its id. */
    method CreateUser(store: Store, rec: InvenioUser, active: bool) returns (user: User)
      requires store.Valid() && Consistent(store.Snapshot())
      modifies store
      ensures store.Valid() && fresh(user)
      ensures user.Row() == NewUserRow(old(store.Snapshot()), rec, active)
      ensures store.Snapshot() == old(store.Snapshot()).(users := old(store.UserRows()) + [NewUserRow(old(store.Snapshot()), rec, active)])
      ensures store.users == old(store.users) + [user]
      ensures store.identities == old(store.identities) && store.accounts == old(store.accounts)
      ensures store.commits == old(store.commits) + 1
    {
      user := new User(|store.users|, rec.email, rec.username, active, rec.userProfile);
      store.users := store.users + [user];
      store.commits := store.commits + 1;
      assert store.UserRows() == old(store.UserRows()) + [user.Row()];
    }

    /** `create` as written. */
    method CreateAsWritten(store: Store, rec: InvenioUser, active: bool, autoConfirm: bool) returns (r: Result<nat, CreateFault>)
      requires store.Valid() && Consistent(store.Snapshot())
      modifies store
      ensures store.Valid()
      ensures (store.Snapshot(), r) == CreatedAsWritten(old(store.Snapshot()), rec, active)
      ensures store.commits == old(store.commits) + 1
    {
      var user := CreateUser(store, rec, active);
      // `user["user_identity_id"]` on the User object: TypeError
      r := Err(NotSubscriptable);
    }

    /** `_create_user_identity` and `db.session.add`: the identity under the remote app's name. */
    method AddIdentity(store: Store, userId: nat, rec: InvenioUser)
      requires store.Valid()
      modifies store`identities
      ensures store.Valid()
      ensures store.Snapshot() == old(store.Snapshot()).(identities := old(store.IdentityRows()) + [IdentityRow(rec.userIdentityId, remoteAppName, userId)])
    {
      var identity := new UserIdentity(rec.userIdentityId, remoteAppName, userId);
      store.identities := store.identities + [identity];
      assert store.IdentityRows() == old(store.IdentityRows()) + [identity.Row()];
    }

    /** `_create_remote_account` and `db.session.add`: the account for this creator's client. */
    method AddRemoteAccount(store: Store, userId: nat, extra: Dict)
      requires store.Valid()
      modifies store`accounts
      ensures store.Valid()
      ensures store.Snapshot() == old(store.Snapshot()).(accounts := old(store.AccountRows()) + [AccountRow(userId, appClientId, extra)])
    {
      var account := new RemoteAccount(userId, appClientId, extra);
      store.accounts := store.accounts + [account];
      assert store.AccountRows() == old(store.AccountRows()) + [account.Row()];
    }

    /** `confirm_user` on the user just appended: only its row changes, to confirmed. */
    method ConfirmLast(store: Store, user: User)
      requires store.Valid() && store.users != [] && store.users[|store.users| - 1] == user
      modifies user`confirmed
      ensures store.Valid()
      ensures store.Snapshot() == old(store.Snapshot()).(users := old(store.UserRows())[..|store.users| - 1] + [old(user.Row()).(confirmed := true)])
    {
      ghost var before := store.UserRows();
      user.confirmed := true;
      assert forall i :: 0 <= i < |store.users| - 1 ==> store.users[i] != user;
      assert store.UserRows() == before[..|store.users| - 1] + [user.Row()];
    }

    /** `create` with the record kept apart from the User object. */
    method Create(store: Store, rec: InvenioUser, active: bool, autoConfirm: bool) returns (r: Result<nat, CreateFault>)
      requires store.Valid() && Consistent(store.Snapshot())
      modifies store
      ensures store.Valid()
      ensures (store.Snapshot(), r) == Created(old(store.Snapshot()), rec, active, autoConfirm, appClientId, remoteAppName)
      ensures store.commits == old(store.commits) + 1
    {
      ghost var t := store.Snapshot();
      ghost var row := NewUserRow(t, rec, active);
      var user := CreateUser(store, rec, active);
      var userId := user.id;
      AddIdentity(store, userId, rec);
      ghost var identities := t.identities + [IdentityRow(rec.userIdentityId, remoteAppName, row.id)];
      assert store.Snapshot() == Tables(t.users + [row], identities, t.accounts);
      var extra := NewExtraData(rec);
      if extra.Err? {
        r := Err(extra.error);
        return;
      }
      AddRemoteAccount(store, userId, extra.value);
      ghost var accounts := t.accounts + [AccountRow(row.id, appClientId, extra.value)];
      if autoConfirm {
        // confirm_user
        ConfirmLast(store, user);
        assert store.Snapshot() == Tables(t.users + [row.(confirmed := true)], identities, accounts);
      } else {
        assert store.Snapshot() == Tables(t.users + [row], identities, accounts);
      }
      r := Ok(userId);
    }
  }
}
