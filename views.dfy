/**
 * accounts/views.py: the signup and login endpoints, which write to the account store, and
 * the two dashboards, which only read the authenticated caller.
 */
module Views {
  import opened Wrappers
  import opened Text
  import opened Models
  import opened Store
  import opened Serializers
  import Middleware

  const HttpOk := 200
  const HttpCreated := 201
  const HttpBadRequest := 400
  const HttpUnauthorized := 401
  const HttpForbidden := 403

  const SignupMessage := "User registered successfully"
  const LoginMessage := "Login successful"
  const AuthenticationRequiredMessage := "Authentication required."
  const PatientDeniedMessage := "Access denied. Patient access required."
  const DoctorDeniedMessage := "Access denied. Doctor access required."
  const PatientWelcome := "Welcome to Patient Dashboard"
  const DoctorWelcome := "Welcome to Doctor Dashboard"

  /** The JSON bodies the endpoints answer with. */
  datatype Body =
    | Registered(message: string, user: Projection, token: string, userType: string)
    | LoggedIn(message: string, user: Projection, token: string, userType: string, redirectUrl: string)
    | Invalid(errors: Errors)
    | Unauthenticated(error: string)
    | Denied(error: string, currentUserType: string, username: string)
    | Welcome(message: string, userData: Projection)

  datatype Response = Response(status: int, body: Body)

  /** `request.user` after token authentication, with the address row its serializer reads. */
  datatype Caller = Anonymous | Authenticated(user: User, address: Option<Address>)

  /** The dashboard a logged-in user is sent to. */
  function RedirectUrl(userType: string): (url: string)
    ensures Middleware.IsApiPath(url)
    ensures |url| == |userType| + 16
    ensures url[5..5 + |userType|] == userType && url[5 + |userType|..] == "/dashboard/"
  {
    "/api/" + userType + "/dashboard/"
  }

  /** The redirects of both roles, spelled out. */
  lemma RedirectUrlExamples()
    ensures RedirectUrl("patient") == "/api/patient/dashboard/"
    ensures RedirectUrl("doctor") == "/api/doctor/dashboard/"
  {
  }

  /** The body shared by both dashboards: 401 for an anonymous caller, 403 unless the caller's
      role, lower-cased, is `role`, and the caller's profile otherwise. */
  function RoleGated(caller: Caller, role: string, deniedMessage: string, welcome: string): (r: Response)
    requires IsLowerCase(role)
    ensures r.status == HttpUnauthorized <==> caller.Anonymous?
    ensures r.status == HttpUnauthorized ==> r.body == Unauthenticated(AuthenticationRequiredMessage)
    ensures r.status == HttpOk <==> caller.Authenticated? && EqualsIgnoringCase(caller.user.userType, role)
    ensures r.status == HttpOk ==> r.body == Welcome(welcome, Project(caller.user, caller.address))
    ensures r.status == HttpForbidden <==> caller.Authenticated? && !EqualsIgnoringCase(caller.user.userType, role)
    ensures r.status == HttpForbidden ==> r.body == Denied(deniedMessage, caller.user.userType, caller.user.username)
  {
    match caller
    case Anonymous => Response(HttpUnauthorized, Unauthenticated(AuthenticationRequiredMessage))
    case Authenticated(user, address) =>
      LowerEqualsIff(user.userType, role);
      if Lower(user.userType) != role then
        Response(HttpForbidden, Denied(deniedMessage, user.userType, user.username))
      else
        Response(HttpOk, Welcome(welcome, Project(user, address)))
  }

  /** `patient_dashboard`. */
  function PatientDashboard(caller: Caller): (r: Response)
    ensures r.status == HttpUnauthorized <==> caller.Anonymous?
    ensures r.status == HttpOk <==> caller.Authenticated? && EqualsIgnoringCase(caller.user.userType, "patient")
    ensures r.status == HttpOk ==> r.body == Welcome(PatientWelcome, Project(caller.user, caller.address))
    ensures r.status == HttpForbidden <==> caller.Authenticated? && !EqualsIgnoringCase(caller.user.userType, "patient")
    ensures r.status == HttpForbidden ==> r.body == Denied(PatientDeniedMessage, caller.user.userType, caller.user.username)
  {
    RoleGated(caller, "patient", PatientDeniedMessage, PatientWelcome)
  }

  /** `doctor_dashboard`. */
  function DoctorDashboard(caller: Caller): (r: Response)
    ensures r.status == HttpUnauthorized <==> caller.Anonymous?
    ensures r.status == HttpOk <==> caller.Authenticated? && EqualsIgnoringCase(caller.user.userType, "doctor")
    ensures r.status == HttpOk ==> r.body == Welcome(DoctorWelcome, Project(caller.user, caller.address))
    ensures r.status == HttpForbidden <==> caller.Authenticated? && !EqualsIgnoringCase(caller.user.userType, "doctor")
    ensures r.status == HttpForbidden ==> r.body == Denied(DoctorDeniedMessage, caller.user.userType, caller.user.username)
  {
    RoleGated(caller, "doctor", DoctorDeniedMessage, DoctorWelcome)
  }

  /** No caller is let into both dashboards, and a caller with no role is let into neither. */
  lemma AtMostOneDashboardAdmits(caller: Caller)
    ensures !(PatientDashboard(caller).status == HttpOk && DoctorDashboard(caller).status == HttpOk)
    ensures caller.Authenticated? && caller.user.userType == "" ==>
              PatientDashboard(caller).status == HttpForbidden && DoctorDashboard(caller).status == HttpForbidden
  {
  }

  /** The role check ignores case: a stored "Patient" is let into the patient dashboard. */
  lemma PatientDashboardIgnoresCase(user: User, address: Option<Address>)
    requires user.userType == "Patient"
    ensures PatientDashboard(Authenticated(user, address)).status == HttpOk
  {
    assert EqualsIgnoringCase(user.userType, "patient");
  }

  /** ... and a stored "DOCTOR" into the doctor dashboard. */
  lemma DoctorDashboardIgnoresCase(user: User, address: Option<Address>)
    requires user.userType == "DOCTOR"
    ensures DoctorDashboard(Authenticated(user, address)).status == HttpOk
  {
    assert EqualsIgnoringCase(user.userType, "doctor");
  }

  /** A patient calling the doctor dashboard is refused, and told its own role and username. */
  lemma PatientRefusedByDoctorDashboard(user: User, address: Option<Address>)
    requires user.userType == "patient"
    ensures DoctorDashboard(Authenticated(user, address)) ==
              Response(HttpForbidden, Denied(DoctorDeniedMessage, "patient", user.username))
  {
  }

  /** The success path of `signup_view`: `serializer.save()`, the token, and the 201 answer,
      for validated data whose user row is `user` and whose address is `address`. */
  method Register(store: AccountStore, data: map<string, Value>, makePassword: string -> string, freshKey: string,
                  ghost user: User, ghost address: Address) returns (resp: Response)
    requires store.Valid() && SignupData(store.users, data)
    requires freshKey !in store.tokens.Values
    requires UserFromKwargs(store.nextId, UserKwargs(data), makePassword(data["password"].s)) == user
    requires data["address"].address == address
    modifies store
    ensures store.Valid()
    ensures old(store.Complete()) ==> store.Complete()
    ensures var id := old(store.nextId);
            && id !in old(store.users)
            && store.users == old(store.users)[id := user]
            && store.addresses == old(store.addresses)[id := address]
            && store.tokens == old(store.tokens)[id := freshKey]
            && store.nextId == id + 1
            && store.patients == (if user.userType == "patient" then old(store.patients) + {id} else old(store.patients))
            && store.doctors == (if user.userType == "doctor" then old(store.doctors) + {id} else old(store.doctors))
    ensures resp == Response(HttpCreated, Registered(SignupMessage, Project(user, Some(address)), freshKey, user.userType))
  {
    ghost var (users, addresses, patients, doctors) := (store.users, store.addresses, store.patients, store.doctors);
    SignupRowIsNew(store.users, data, store.nextId, makePassword(data["password"].s));
    SignupKeepsTablesComplete(users, addresses, patients, doctors, store.nextId, user, address);
    var id := Create(store, data, makePassword);
    var key := store.GetOrCreateToken(id, freshKey);
    var created := store.users[id];
    assert created == user && store.AddressOf(id) == Some(address) && key == freshKey;
    resp := Response(HttpCreated, Registered(SignupMessage, Project(created, store.AddressOf(id)), key, created.userType));
  }

  /** `signup_view`: trim the text fields, validate, create the account, get or create its token and answer 201;
      answer 400 with the serializer's errors and leave the store alone otherwise. */
  method SignupView(store: AccountStore, req: SignupRequest, validatePassword: string -> seq<string>,
                    makePassword: string -> string, freshKey: string) returns (resp: Response)
    requires store.Valid() && freshKey !in store.tokens.Values
    modifies store
    ensures store.Valid()
    ensures old(store.Complete()) ==> store.Complete()
    ensures var outcome := SignupValidation(old(store.users), TrimRequest(req), validatePassword);
            outcome.Err? ==> resp == Response(HttpBadRequest, Invalid(outcome.error)) && unchanged(store)
    ensures var fields := TrimRequest(req);
            var outcome := SignupValidation(old(store.users), fields, validatePassword);
            outcome.Ok? ==>
              var id := old(store.nextId);
              var user := SubmittedUser(id, fields, makePassword(fields.password.value));
              var address := CheckAddress(fields.address).value;
              && id !in old(store.users)
              && store.users == old(store.users)[id := user]
              && store.addresses == old(store.addresses)[id := address]
              && store.tokens == old(store.tokens)[id := freshKey]
              && store.nextId == id + 1
              && store.patients == (if req.userType == Some("patient") then old(store.patients) + {id} else old(store.patients))
              && store.doctors == (if req.userType == Some("doctor") then old(store.doctors) + {id} else old(store.doctors))
              && resp == Response(HttpCreated, Registered(SignupMessage, Project(user, Some(address)), freshKey, req.userType.value))
  {
    var fields := TrimRequest(req);
    var outcome := SignupValidation(store.users, fields, validatePassword);
    if outcome.Err? {
      resp := Response(HttpBadRequest, Invalid(outcome.error));
      return;
    }
    ghost var user := SubmittedUser(store.nextId, fields, makePassword(fields.password.value));
    CreatedUserIsSubmitted(store.users, fields, validatePassword, store.nextId, makePassword(fields.password.value));
    resp := Register(store, outcome.value, makePassword, freshKey, user, CheckAddress(fields.address).value);
  }

  /** `login_view`: on valid credentials (both trimmed, as `CharField`s are), get or create the user's token and answer 200 with the
      redirect to the user's dashboard; otherwise answer 400 and leave the tokens alone. */
  method LoginView(store: AccountStore, username: Option<string>, password: Option<string>,
                   authenticate: (string, string) -> Option<User>, freshKey: string) returns (resp: Response)
    requires store.Valid() && ReturnsStoredUser(authenticate, store.users)
    requires var outcome := LoginValidation(TrimField(username), TrimField(password), authenticate);
             outcome.Ok? ==> store.KeyUsable(outcome.value.id, freshKey)
    modifies store`tokens
    ensures store.Valid()
    ensures old(store.Complete()) ==> store.Complete()
    ensures var outcome := LoginValidation(TrimField(username), TrimField(password), authenticate);
            outcome.Err? ==> resp == Response(HttpBadRequest, Invalid(outcome.error)) && store.tokens == old(store.tokens)
    ensures var outcome := LoginValidation(TrimField(username), TrimField(password), authenticate);
            outcome.Ok? ==>
              var u := outcome.value;
              && u.id in store.users && store.users[u.id] == u
              && store.tokens == (if u.id in old(store.tokens) then old(store.tokens) else old(store.tokens)[u.id := freshKey])
              && resp == Response(HttpOk, LoggedIn(LoginMessage, Project(u, store.AddressOf(u.id)), store.tokens[u.id],
                                                   u.userType, RedirectUrl(u.userType)))
  {
    var outcome := LoginValidation(TrimField(username), TrimField(password), authenticate);
    if outcome.Err? {
      resp := Response(HttpBadRequest, Invalid(outcome.error));
      return;
    }
    var user := outcome.value;
    var key := store.GetOrCreateToken(user.id, freshKey);
    resp := Response(HttpOk, LoggedIn(LoginMessage, Project(user, store.AddressOf(user.id)), key,
                                      user.userType, RedirectUrl(user.userType)));
  }

  /** Logging in twice with the same credentials answers the same: the second login finds the
      token the first one stored, whatever key it would have generated. */
  method LoginTwice(store: AccountStore, username: Option<string>, password: Option<string>,
                    authenticate: (string, string) -> Option<User>, firstKey: string, secondKey: string)
    returns (first: Response, second: Response)
    requires store.Valid() && ReturnsStoredUser(authenticate, store.users)
    requires var outcome := LoginValidation(TrimField(username), TrimField(password), authenticate);
             outcome.Ok? ==> store.KeyUsable(outcome.value.id, firstKey)
    modifies store`tokens
    ensures second == first
    ensures first.status == HttpOk || first.status == HttpBadRequest
  {
    ghost var outcome := LoginValidation(TrimField(username), TrimField(password), authenticate);
    first := LoginView(store, username, password, authenticate, firstKey);
    assert outcome.Ok? ==> outcome.value.id in store.tokens;
    second := LoginView(store, username, password, authenticate, secondKey);
  }
}
