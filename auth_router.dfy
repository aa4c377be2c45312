/** Employee self-service authentication: sign up with a fresh username,
    and log in for a token naming the user and its role. */
module AuthRouter {
  import opened Common
  import opened Records
  import opened Database
  import opened AuthUtils

  const USERNAME_TAKEN: HttpError := HttpError(400, "Username already registered")
  const INVALID_LOGIN: HttpError := HttpError(401, "Invalid username or password")

  /** `signup`: 400 when the username is taken, otherwise `create_user` with
      the default role. */
  method Signup(store: Store, username: string, password: string, hash: string -> string)
    returns (r: Result<User>)
    requires store.Valid()
    modifies store
    ensures store.Valid()
    ensures GetUserByUsername(old(store.users), username).Some? <==> r == Err(USERNAME_TAKEN)
    ensures r.Err? ==> r == Err(USERNAME_TAKEN)
    ensures r.Err? ==> store.users == old(store.users) && store.nextUserId == old(store.nextUserId)
    ensures r.Ok? ==> r.value == User(old(store.nextUserId), username, hash(password), EMPLOYEE, None, None)
    ensures r.Ok? ==> store.users == old(store.users) + [r.value]
    ensures r.Ok? ==> store.nextUserId == old(store.nextUserId) + 1
    ensures UniqueUsernames(old(store.users)) ==> UniqueUsernames(store.users)
    ensures store.companies == old(store.companies) && store.nextCompanyId == old(store.nextCompanyId)
    ensures store.videos == old(store.videos) && store.predictions == old(store.predictions)
  {
    var existing := GetUserByUsername(store.users, username);
    if existing.Some? {
      return Err(USERNAME_TAKEN);
    }
    ghost var before := store.users;
    var user := CreateUser(store, username, password, hash);
    AddFreshUsername(before, user);
    return Ok(user);
  }

  /** A user whose username nobody holds keeps usernames unique. */
  lemma AddFreshUsername(users: seq<User>, u: User)
    requires GetUserByUsername(users, u.username).None?
    ensures UniqueUsernames(users) ==> UniqueUsernames(users + [u])
  {
    if UniqueUsernames(users) {
      var r := users + [u];
      forall i, j | 0 <= i < j < |r| ensures r[i].username != r[j].username {
        if j == |users| {
          assert r[i] in users;
        } else {
          assert r[i] == users[i] && r[j] == users[j];
        }
      }
    }
  }

  /** `login`: 401 unless `authenticate_user` accepts; the token names the
      user and its role. */
  function Login(users: seq<User>, username: string, password: string, verify: (string, string) -> bool)
    : (r: Result<Claims>)
    ensures AuthenticateUser(users, username, password, verify).None? <==> r == Err(INVALID_LOGIN)
    ensures r.Err? ==> r == Err(INVALID_LOGIN)
    ensures r.Ok? ==> r.value.UserClaims? && r.value.sub == username
    ensures r.Ok? ==> r.value == UserClaims(username, GetUserByUsername(users, username).value.role)
    ensures r.Ok? ==> verify(password, GetUserByUsername(users, username).value.hashedPassword)
  {
    match AuthenticateUser(users, username, password, verify)
    case None => Err(INVALID_LOGIN)
    case Some(user) => Ok(UserClaims(user.username, user.role))
  }
}
