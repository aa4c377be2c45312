/** The user-table helpers of authentication: lookup by username, insertion
    of a new user, and the username-and-password check. Password hashing and
    its verification are functions the model does not look into. */
module AuthUtils {
  import opened Common
  import opened Records
  import opened Database

  /** The claims a signed access token carries; the signature and the expiry
      the token adds are not part of this model. */
  datatype Claims =
    | UserClaims(sub: string, role: string)
    | HrClaims(sub: string, role: string, companyId: Option<nat>)

  /** `get_user_by_username`: the first user with that username, if any. */
  function GetUserByUsername(users: seq<User>, username: string): (r: Option<User>)
    ensures r.None? <==> forall u :: u in users ==> u.username != username
    ensures r.Some? ==> exists i :: (0 <= i < |users| && users[i] == r.value && users[i].username == username &&
      forall j :: 0 <= j < i ==> users[j].username != username)
  {
    if users == [] then None
    else if users[0].username == username then Some(users[0])
    else
      var r := GetUserByUsername(users[1..], username);
      if r.Some? then
        var i :| 0 <= i < |users[1..]| && users[1..][i] == r.value && users[1..][i].username == username &&
          forall j :: 0 <= j < i ==> users[1..][j].username != username;
        assert users[i + 1] == r.value;
        r
      else
        r
  }

  /** `create_user`: one new row with the next id, the username, the hash of
      the password and the role (by default "employee"); no company, no email. */
  method CreateUser(store: Store, username: string, password: string, hash: string -> string, role: string := EMPLOYEE)
    returns (user: User)
    requires store.Valid()
    modifies store
    ensures store.Valid()
    ensures user == User(old(store.nextUserId), username, hash(password), role, None, None)
    ensures store.users == old(store.users) + [user]
    ensures store.nextUserId == old(store.nextUserId) + 1
    ensures store.companies == old(store.companies) && store.nextCompanyId == old(store.nextCompanyId)
    ensures store.videos == old(store.videos) && store.predictions == old(store.predictions)
  {
    user := User(store.nextUserId, username, hash(password), role, None, None);
    store.users := store.users + [user];
    store.nextUserId := store.nextUserId + 1;
  }

  /** `authenticate_user`: the first user with that username, provided the
      password verifies against that user's stored hash. */
  function AuthenticateUser(users: seq<User>, username: string, password: string, verify: (string, string) -> bool)
    : (r: Option<User>)
    ensures (forall u :: u in users ==> u.username != username) ==> r.None?
    ensures r.Some? ==> r.value in users && r.value.username == username && verify(password, r.value.hashedPassword)
    ensures r.Some? ==> forall u :: u in users && u.username == username && u != r.value ==>
      exists i, j :: 0 <= i < j < |users| && users[i] == r.value && users[j] == u
    ensures GetUserByUsername(users, username).Some? ==>
      (r.None? <==> !verify(password, GetUserByUsername(users, username).value.hashedPassword))
    ensures r.Some? ==> r == GetUserByUsername(users, username)
  {
    match GetUserByUsername(users, username)
    case None => None
    case Some(user) =>
      if !verify(password, user.hashedPassword) then None
      else
        FirstComesFirst(users, username, user);
        Some(user)
  }

  /** Any other user with the same username comes after the one the lookup finds. */
  lemma FirstComesFirst(users: seq<User>, username: string, user: User)
    requires GetUserByUsername(users, username) == Some(user)
    ensures forall u :: u in users && u.username == username && u != user ==>
      exists i, j :: 0 <= i < j < |users| && users[i] == user && users[j] == u
  {
    var i :| 0 <= i < |users| && users[i] == user && users[i].username == username &&
      forall j :: 0 <= j < i ==> users[j].username != username;
    forall u | u in users && u.username == username && u != user
      ensures exists i, j :: 0 <= i < j < |users| && users[i] == user && users[j] == u
    {
      var j :| 0 <= j < |users| && users[j] == u;
      assert i < j;
    }
  }

  /** No two users share a username. */
  predicate UniqueUsernames(users: seq<User>) {
    forall i, j :: 0 <= i < j < |users| ==> users[i].username != users[j].username
  }

  /** With unique usernames, a user authenticates iff it holds that username
      and the password verifies against its hash. */
  lemma AuthenticateUnique(users: seq<User>, username: string, password: string, verify: (string, string) -> bool, u: User)
    requires UniqueUsernames(users) && u in users && u.username == username
    ensures AuthenticateUser(users, username, password, verify) == Some(u) <==> verify(password, u.hashedPassword)
  {
    var found := GetUserByUsername(users, username).value;
    var i :| 0 <= i < |users| && users[i] == found && users[i].username == username &&
      forall j :: 0 <= j < i ==> users[j].username != username;
    var k :| 0 <= k < |users| && users[k] == u;
    assert k == i;
  }
}
