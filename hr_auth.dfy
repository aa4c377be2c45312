/** HR authentication: an HR signup registers a new company, under its
    lower-cased name, together with its first HR user; HR login issues a
    token that also names the company. */
module HrAuth {
  import opened Common
  import opened Text
  import opened Records
  import opened Database
  import opened AuthUtils

  const COMPANY_EXISTS: HttpError := HttpError(400, "Company already exists")
  const INVALID_HR: HttpError := HttpError(401, "Invalid HR credentials")

  /** `query(Company).filter(Company.name == name).first()` */
  function FindCompany(companies: seq<Company>, name: string): (r: Option<Company>)
    ensures r.Some? ==> r.value in companies && r.value.name == name
    ensures r.None? <==> forall c :: c in companies ==> c.name != name
  {
    if companies == [] then None
    else if companies[0].name == name then Some(companies[0])
    else FindCompany(companies[1..], name)
  }

  /** A company registered under a lower-cased name no company holds keeps
      the names lower-case and distinct. */
  lemma RegisterCompany(companies: seq<Company>, raw: string, id: nat)
    requires CompanyNamesOk(companies)
    requires FindCompany(companies, Lower(raw)).None?
    ensures CompanyNamesOk(companies + [Company(id, Lower(raw))])
  {
    var r := companies + [Company(id, Lower(raw))];
    LowerIdempotent(raw);
    forall i, j | 0 <= i < j < |r| ensures r[i].name != r[j].name {
      if j == |companies| {
        assert r[i] in companies;
      } else {
        assert r[i] == companies[i] && r[j] == companies[j];
      }
    }
  }

  /** `signup_hr`: 400 when a company has the lower-cased name; otherwise one
      company under that name and one HR user of it, whose username is the
      email. The username is not checked against existing users. */
  method SignupHr(store: Store, companyName: string, email: string, password: string, hash: string -> string)
    returns (r: Result<User>)
    requires store.Valid()
    modifies store
    ensures store.Valid()
    ensures FindCompany(old(store.companies), Lower(companyName)).Some? <==> r == Err(COMPANY_EXISTS)
    ensures r.Err? ==> r == Err(COMPANY_EXISTS)
    ensures r.Err? ==> store.companies == old(store.companies) && store.users == old(store.users)
    ensures r.Err? ==> store.nextCompanyId == old(store.nextCompanyId) && store.nextUserId == old(store.nextUserId)
    ensures r.Ok? ==> store.companies == old(store.companies) + [Company(old(store.nextCompanyId), Lower(companyName))]
    ensures r.Ok? ==> r.value == User(old(store.nextUserId), email, hash(password), HR, Some(old(store.nextCompanyId)), None)
    ensures r.Ok? ==> store.users == old(store.users) + [r.value]
    ensures r.Ok? ==> store.nextCompanyId == old(store.nextCompanyId) + 1 && store.nextUserId == old(store.nextUserId) + 1
    ensures store.videos == old(store.videos) && store.predictions == old(store.predictions)
  {
    var name := Lower(companyName);
    var existing := FindCompany(store.companies, name);
    if existing.Some? {
      return Err(COMPANY_EXISTS);
    }
    RegisterCompany(store.companies, companyName, store.nextCompanyId);
    var company := Company(store.nextCompanyId, name);
    store.companies := store.companies + [company];
    store.nextCompanyId := store.nextCompanyId + 1;
    var user := User(store.nextUserId, email, hash(password), HR, Some(company.id), None);
    store.users := store.users + [user];
    store.nextUserId := store.nextUserId + 1;
    return Ok(user);
  }

  /** The first user with that username and the HR role. */
  function FindHr(users: seq<User>, username: string): (r: Option<User>)
    ensures r.Some? ==> r.value in users && r.value.username == username && r.value.role == HR
    ensures r.Some? ==> exists i :: (0 <= i < |users| && users[i] == r.value &&
      forall j :: 0 <= j < i ==> !(users[j].username == username && users[j].role == HR))
    ensures r.None? <==> forall u :: u in users ==> !(u.username == username && u.role == HR)
  {
    if users == [] then None
    else if users[0].username == username && users[0].role == HR then Some(users[0])
    else FindHr(users[1..], username)
  }

  /** `login_hr`: 401 unless an HR user has that username and the password
      verifies against its hash; the token names the user, its role and its
      company. */
  function LoginHr(users: seq<User>, username: string, password: string, verify: (string, string) -> bool)
    : (r: Result<Claims>)
    ensures FindHr(users, username).None? ==> r == Err(INVALID_HR)
    ensures FindHr(users, username).Some? ==>
      (r == Err(INVALID_HR) <==> !verify(password, FindHr(users, username).value.hashedPassword))
    ensures r.Ok? ==> r.value == HrClaims(username, HR, FindHr(users, username).value.companyId)
    ensures r.Err? ==> r == Err(INVALID_HR)
  {
    match FindHr(users, username)
    case None => Err(INVALID_HR)
    case Some(user) =>
      if !verify(password, user.hashedPassword) then Err(INVALID_HR)
      else Ok(HrClaims(user.username, user.role, user.companyId))
  }

  /** An HR signup makes its user an HR of the new company: HR login with
      that email and a password that verifies names the new company, unless
      an earlier HR user already holds that username. */
  lemma SignupThenLogin(users: seq<User>, u: User, password: string, verify: (string, string) -> bool)
    requires u.role == HR && verify(password, u.hashedPassword)
    requires FindHr(users, u.username).None?
    ensures LoginHr(users + [u], u.username, password, verify) == Ok(HrClaims(u.username, HR, u.companyId))
  {
    FindHrAppend(users, u);
  }

  lemma {:induction false} FindHrAppend(users: seq<User>, u: User)
    requires u.role == HR && FindHr(users, u.username).None?
    ensures FindHr(users + [u], u.username) == Some(u)
    decreases |users|
  {
    if users != [] {
      assert (users + [u])[1..] == users[1..] + [u];
      FindHrAppend(users[1..], u);
    }
  }
}
