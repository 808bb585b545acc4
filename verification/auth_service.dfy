/**
 The sign-up and sign-in operations of the authentication service.

 The service talks to three collaborators: the identity provider
 (`register`, `login`), the user service (`addUser`) and the HTTP response
 (`res.cookie`). Each is a class here that records what it was asked to do.
 What a collaborator answers is not computed by this model: the provider's
 reply and the error, if any, that `addUser` or a cookie write throws are
 parameters of the operation.

 `SignUpEffects` and `SignInEffects` say, as values, what one call does: the
 outcome, the `addUser` calls it makes and the cookie writes that take
 effect. The methods of `AuthService` are proved to do exactly that.
 */
module AuthService {
  import opened AuthTypes
  import opened ErrorPolicy

  /**
   The names of the access-token and refresh-token cookies. Their actual
   strings are configuration; all that matters here is that they differ.
   */
  const ACCESS_TOKEN := "access_token"
  const REFRESH_TOKEN := "refresh_token"

  /** Which of the two `res.cookie` calls throw, and what. */
  datatype CookieFaults = CookieFaults(access: Option<Failure>, refresh: Option<Failure>)

  /** Which of the steps after a successful registration throw, and what. */
  datatype SignUpFaults = SignUpFaults(addUser: Option<Failure>, cookies: CookieFaults)

  /** Everything one call does, seen from outside. */
  datatype Effects = Effects(outcome: Outcome, addUserCalls: seq<UserEntity>, cookieWrites: seq<Cookie>)

  /** The two cookies a successful call sets, in the order it sets them. */
  function TokenCookies(token: string, refreshToken: string): seq<Cookie> {
    [Cookie(ACCESS_TOKEN, token), Cookie(REFRESH_TOKEN, refreshToken)]
  }

  /**
   The two `res.cookie` calls: the writes that took effect, and the error
   that stopped them, if one did.
   */
  function TokenCookieWrites(token: string, refreshToken: string, faults: CookieFaults)
    : (r: (seq<Cookie>, Option<Failure>))
    ensures r.0 <= TokenCookies(token, refreshToken)
    ensures r.1.None? <==> faults.access.None? && faults.refresh.None?
    ensures r.1.None? ==> r.0 == TokenCookies(token, refreshToken)
    ensures faults.access.Some? ==> r.0 == [] && r.1 == faults.access
    ensures faults.access.None? && faults.refresh.Some? ==>
              r.0 == [Cookie(ACCESS_TOKEN, token)] && r.1 == faults.refresh
  {
    if faults.access.Some? then ([], faults.access)
    else if faults.refresh.Some? then ([Cookie(ACCESS_TOKEN, token)], faults.refresh)
    else (TokenCookies(token, refreshToken), None)
  }

  /** The request body `signUpUser` sends to the provider's `register`. */
  function RegistrationRequestFor(applicationId: string, dto: SignUpDto): RegistrationRequest {
    RegistrationRequest(applicationId, dto.firstName, dto.lastName, dto.userName, dto.email, dto.password)
  }

  /** The request body `signInUser` sends to the provider's `login`. */
  function LoginRequestFor(applicationId: string, dto: SignInDto): LoginRequest {
    LoginRequest(applicationId, dto.email, dto.password)
  }

  /**
   What `signUpUser` does. Register; on success persist the user once, then
   write the two token cookies and return the provider's user id. Every
   error thrown inside the `try` -- by `register`, by `addUser` or by a
   cookie write -- goes through the sign-up catch block.
   */
  function SignUpEffects(reply: ProviderReply<RegistrationResponse>, faults: SignUpFaults): (t: Effects)
    // success needs every step to succeed, and returns the provider's id
    ensures t.outcome.Ok? <==>
              reply.Resolved? && faults.addUser.None? && faults.cookies == CookieFaults(None, None)
    ensures t.outcome.Ok? ==> t.outcome.id == reply.response.user.id
    ensures t.outcome.Ok? ==>
              t.cookieWrites == TokenCookies(reply.response.token, reply.response.refreshToken)
    // persistence: exactly once after a successful registration, never otherwise
    ensures reply.Resolved? ==>
              t.addUserCalls == [UserEntity(reply.response.user, reply.response.registration)]
    ensures reply.Rejected? ==> t.addUserCalls == [] && t.cookieWrites == []
    // cookies only after persistence succeeded, and only the registration's tokens
    ensures t.cookieWrites != [] ==>
              reply.Resolved? && faults.addUser.None? &&
              t.cookieWrites <= TokenCookies(reply.response.token, reply.response.refreshToken)
    ensures reply.Resolved? && faults.cookies.access.Some? ==> t.cookieWrites == []
    ensures reply.Resolved? && faults.addUser.None? && faults.cookies.access.None? && faults.cookies.refresh.Some? ==>
              t.cookieWrites == [Cookie(ACCESS_TOKEN, reply.response.token)]
    // every failure is the catch block applied to the first error thrown
    ensures reply.Rejected? ==> t.outcome == ClassifySignUpError(reply.error)
    ensures reply.Resolved? && faults.addUser.Some? ==>
              t.outcome == ClassifySignUpError(faults.addUser.value)
    ensures reply.Resolved? && faults.addUser.None? && faults.cookies.access.Some? ==>
              t.outcome == ClassifySignUpError(faults.cookies.access.value)
    ensures reply.Resolved? && faults.addUser.None? && faults.cookies.access.None? && faults.cookies.refresh.Some? ==>
              t.outcome == ClassifySignUpError(faults.cookies.refresh.value)
    ensures !t.outcome.NotFound?
  {
    match reply
    case Rejected(e) => Effects(ClassifySignUpError(e), [], [])
    case Resolved(rsp) =>
      var entity := UserEntity(rsp.user, rsp.registration);
      if faults.addUser.Some? then
        Effects(ClassifySignUpError(faults.addUser.value), [entity], [])
      else
        var (writes, thrown) := TokenCookieWrites(rsp.token, rsp.refreshToken, faults.cookies);
        var outcome := if thrown.Some? then ClassifySignUpError(thrown.value) else Ok(rsp.user.id);
        Effects(outcome, [entity], writes)
  }

  /**
   What `signInUser` does. Log in; on success write the two token cookies
   and return the provider's user id. It never calls `addUser`, and every
   error goes through the sign-in catch block.
   */
  function SignInEffects(reply: ProviderReply<LoginResponse>, faults: CookieFaults): (t: Effects)
    ensures t.addUserCalls == []
    ensures t.outcome.Ok? <==> reply.Resolved? && faults == CookieFaults(None, None)
    ensures t.outcome.Ok? ==> t.outcome.id == reply.response.user.id
    ensures t.outcome.Ok? ==>
              t.cookieWrites == TokenCookies(reply.response.token, reply.response.refreshToken)
    ensures reply.Rejected? ==> t.cookieWrites == [] && t.outcome == ClassifySignInError(reply.error)
    ensures reply.Resolved? && faults.access.Some? ==> t.outcome == ClassifySignInError(faults.access.value)
    ensures reply.Resolved? && faults.access.None? && faults.refresh.Some? ==>
              t.outcome == ClassifySignInError(faults.refresh.value)
    ensures t.cookieWrites != [] ==>
              reply.Resolved? && t.cookieWrites <= TokenCookies(reply.response.token, reply.response.refreshToken)
    ensures reply.Resolved? && faults.access.Some? ==> t.cookieWrites == []
    ensures reply.Resolved? && faults.access.None? && faults.refresh.Some? ==>
              t.cookieWrites == [Cookie(ACCESS_TOKEN, reply.response.token)]
    ensures !t.outcome.Rethrow? && !t.outcome.Conflict?
  {
    match reply
    case Rejected(e) => Effects(ClassifySignInError(e), [], [])
    case Resolved(rsp) =>
      var (writes, thrown) := TokenCookieWrites(rsp.token, rsp.refreshToken, faults);
      var outcome := if thrown.Some? then ClassifySignInError(thrown.value) else Ok(rsp.user.id);
      Effects(outcome, [], writes)
  }

  // ---------------------------------------------------------------------
  // Cookies on the response

  /** The cookies a response carries after `writes`, applied in order. */
  function ApplyCookies(jar: map<string, string>, writes: seq<Cookie>): map<string, string>
    decreases |writes|
  {
    if writes == [] then jar
    else ApplyCookies(jar[writes[0].name := writes[0].value], writes[1..])
  }

  function Names(writes: seq<Cookie>): set<string> {
    set c | c in writes :: c.name
  }

  /** Writing cookies adds exactly their names to the response's cookies. */
  lemma {:induction false} ApplyCookiesKeys(jar: map<string, string>, writes: seq<Cookie>)
    ensures ApplyCookies(jar, writes).Keys == jar.Keys + Names(writes)
    decreases |writes|
  {
    if writes != [] {
      var c := writes[0];
      ApplyCookiesKeys(jar[c.name := c.value], writes[1..]);
      assert writes == [c] + writes[1..];
      assert Names(writes) == {c.name} + Names(writes[1..]);
    }
  }

  /** A cookie that no write names keeps its value. */
  lemma {:induction false} ApplyCookiesUntouched(jar: map<string, string>, writes: seq<Cookie>, name: string)
    requires name in jar
    requires forall c :: c in writes ==> c.name != name
    ensures name in ApplyCookies(jar, writes) && ApplyCookies(jar, writes)[name] == jar[name]
    decreases |writes|
  {
    if writes != [] {
      var c := writes[0];
      assert c in writes;
      forall c' | c' in writes[1..] ensures c'.name != name {
        assert c' in writes;
      }
      ApplyCookiesUntouched(jar[c.name := c.value], writes[1..], name);
    }
  }

  /** The token-cookie writes, applied: each adds or replaces its own cookie. */
  lemma ApplyTokenCookies(jar: map<string, string>, token: string, refreshToken: string)
    ensures ApplyCookies(jar, [Cookie(ACCESS_TOKEN, token)]) == jar[ACCESS_TOKEN := token]
    ensures ApplyCookies(jar, TokenCookies(token, refreshToken)) ==
              jar[ACCESS_TOKEN := token][REFRESH_TOKEN := refreshToken]
  {
    var access := Cookie(ACCESS_TOKEN, token);
    var writes := TokenCookies(token, refreshToken);
    assert [access][1..] == [];
    assert writes[1..] == [Cookie(REFRESH_TOKEN, refreshToken)];
    calc {
      ApplyCookies(jar, writes);
      ApplyCookies(jar[ACCESS_TOKEN := token], writes[1..]);
      ApplyCookies(jar[ACCESS_TOKEN := token], [Cookie(REFRESH_TOKEN, refreshToken)]);
    }
  }

  /**
   Any prefix of the token-cookie writes touches no cookie but the two token
   cookies: other names are neither added nor changed.
   */
  lemma TokenWritesTouchOnlyTokenCookies(jar: map<string, string>, writes: seq<Cookie>,
                                         token: string, refreshToken: string)
    requires writes <= TokenCookies(token, refreshToken)
    ensures ApplyCookies(jar, writes).Keys <= jar.Keys + {ACCESS_TOKEN, REFRESH_TOKEN}
    ensures forall name :: name in jar && name != ACCESS_TOKEN && name != REFRESH_TOKEN ==>
              name in ApplyCookies(jar, writes) && ApplyCookies(jar, writes)[name] == jar[name]
  {
    forall c | c in writes ensures c.name == ACCESS_TOKEN || c.name == REFRESH_TOKEN {
      var i :| 0 <= i < |writes| && writes[i] == c;
      assert c == TokenCookies(token, refreshToken)[i];
    }
    ApplyCookiesKeys(jar, writes);
    forall name | name in jar && name != ACCESS_TOKEN && name != REFRESH_TOKEN
      ensures name in ApplyCookies(jar, writes) && ApplyCookies(jar, writes)[name] == jar[name]
    {
      ApplyCookiesUntouched(jar, writes, name);
    }
  }

  /**
   The cookies a sign-up call leaves on the response: both token cookies on
   success (so exactly these two on a fresh response), none when
   registration or persistence failed, and the access-token cookie alone
   when only the refresh-token write failed.
   */
  lemma SignUpCookieJar(jar: map<string, string>, reply: ProviderReply<RegistrationResponse>, faults: SignUpFaults)
    ensures var after := ApplyCookies(jar, SignUpEffects(reply, faults).cookieWrites);
      && (SignUpEffects(reply, faults).outcome.Ok? ==>
            after == jar[ACCESS_TOKEN := reply.response.token][REFRESH_TOKEN := reply.response.refreshToken])
      && (SignUpEffects(reply, faults).outcome.Ok? && jar == map[] ==>
            after.Keys == {ACCESS_TOKEN, REFRESH_TOKEN})
      && (reply.Rejected? || faults.addUser.Some? || faults.cookies.access.Some? ==> after == jar)
      && (reply.Resolved? && faults.addUser.None? && faults.cookies.access.None? && faults.cookies.refresh.Some? ==>
            after == jar[ACCESS_TOKEN := reply.response.token])
      && after.Keys <= jar.Keys + {ACCESS_TOKEN, REFRESH_TOKEN}
      && (forall name :: name in jar && name != ACCESS_TOKEN && name != REFRESH_TOKEN ==>
            name in after && after[name] == jar[name])
  {
    var writes := SignUpEffects(reply, faults).cookieWrites;
    if reply.Resolved? {
      ApplyTokenCookies(jar, reply.response.token, reply.response.refreshToken);
      TokenWritesTouchOnlyTokenCookies(jar, writes, reply.response.token, reply.response.refreshToken);
    }
  }

  /**
   The cookies a sign-in call leaves on the response: both token cookies on
   success (so exactly these two on a fresh response), none when the login
   was rejected or the access write failed, the access-token cookie alone
   when only the refresh-token write failed; no other cookie is touched.
   */
  lemma SignInCookieJar(jar: map<string, string>, reply: ProviderReply<LoginResponse>, faults: CookieFaults)
    ensures var after := ApplyCookies(jar, SignInEffects(reply, faults).cookieWrites);
      && (SignInEffects(reply, faults).outcome.Ok? ==>
            after == jar[ACCESS_TOKEN := reply.response.token][REFRESH_TOKEN := reply.response.refreshToken])
      && (SignInEffects(reply, faults).outcome.Ok? && jar == map[] ==>
            after.Keys == {ACCESS_TOKEN, REFRESH_TOKEN})
      && (reply.Rejected? || faults.access.Some? ==> after == jar)
      && (reply.Resolved? && faults.access.None? && faults.refresh.Some? ==>
            after == jar[ACCESS_TOKEN := reply.response.token])
      && after.Keys <= jar.Keys + {ACCESS_TOKEN, REFRESH_TOKEN}
      && (forall name :: name in jar && name != ACCESS_TOKEN && name != REFRESH_TOKEN ==>
            name in after && after[name] == jar[name])
  {
    var writes := SignInEffects(reply, faults).cookieWrites;
    if reply.Resolved? {
      ApplyTokenCookies(jar, reply.response.token, reply.response.refreshToken);
      TokenWritesTouchOnlyTokenCookies(jar, writes, reply.response.token, reply.response.refreshToken);
    }
  }

  // ---------------------------------------------------------------------
  // The collaborators and the service

  /** The HTTP response of one request; `cookie` adds or replaces a cookie. */
  class Response {
    var cookies: map<string, string>

    constructor ()
      ensures cookies == map[]
    {
      cookies := map[];
    }

    /** `res.cookie(name, value, options)`; `fault` is what it throws, if anything. */
    method SetCookie(name: string, value: string, fault: Option<Failure>) returns (thrown: Option<Failure>)
      modifies this
      ensures thrown == fault
      ensures cookies == if fault.None? then old(cookies)[name := value] else old(cookies)
    {
      thrown := fault;
      if fault.None? {
        cookies := cookies[name := value];
      }
    }
  }

  /** The local user store, seen through the calls it receives. */
  class UserService {
    var received: seq<UserEntity>

    constructor ()
      ensures received == []
    {
      received := [];
    }

    /** `addUser(entity)`; `fault` is what it throws, if anything. */
    method AddUser(entity: UserEntity, fault: Option<Failure>) returns (thrown: Option<Failure>)
      modifies this
      ensures thrown == fault
      ensures received == old(received) + [entity]
    {
      received := received + [entity];
      thrown := fault;
    }
  }

  /** The identity provider, seen through the requests it receives. */
  class IdentityProvider {
    var registrations: seq<RegistrationRequest>
    var logins: seq<LoginRequest>

    constructor ()
      ensures registrations == [] && logins == []
    {
      registrations, logins := [], [];
    }

    /** `register(undefined, request)`, answered with `reply`. */
    method Register(request: RegistrationRequest, reply: ProviderReply<RegistrationResponse>)
      returns (r: ProviderReply<RegistrationResponse>)
      modifies this
      ensures r == reply
      ensures registrations == old(registrations) + [request] && logins == old(logins)
    {
      registrations := registrations + [request];
      r := reply;
    }

    /** `login(request)`, answered with `reply`. */
    method Login(request: LoginRequest, reply: ProviderReply<LoginResponse>) returns (r: ProviderReply<LoginResponse>)
      modifies this
      ensures r == reply
      ensures logins == old(logins) + [request] && registrations == old(registrations)
    {
      logins := logins + [request];
      r := reply;
    }
  }

  class AuthService {
    const applicationId: string
    const provider: IdentityProvider
    const userService: UserService

    constructor (applicationId: string, provider: IdentityProvider, userService: UserService)
      ensures this.applicationId == applicationId
      ensures this.provider == provider && this.userService == userService
    {
      this.applicationId := applicationId;
      this.provider := provider;
      this.userService := userService;
    }

    /** The two `res.cookie` calls shared by sign-up and sign-in. */
    static method SetTokenCookies(res: Response, token: string, refreshToken: string, faults: CookieFaults)
      returns (thrown: Option<Failure>)
      modifies res
      ensures var (writes, failure) := TokenCookieWrites(token, refreshToken, faults);
        thrown == failure && res.cookies == ApplyCookies(old(res.cookies), writes)
    {
      ApplyTokenCookies(res.cookies, token, refreshToken);
      thrown := res.SetCookie(ACCESS_TOKEN, token, faults.access);
      if thrown.Some? {
        return;
      }
      thrown := res.SetCookie(REFRESH_TOKEN, refreshToken, faults.refresh);
    }

    /**
     `signUpUser(res, signUpDto)`: `reply` is the provider's answer to the
     registration, `faults` the errors thrown by the later steps.
     */
    method SignUpUser(res: Response, dto: SignUpDto, reply: ProviderReply<RegistrationResponse>, faults: SignUpFaults)
      returns (r: Outcome)
      modifies res, provider, userService
      ensures var t := SignUpEffects(reply, faults);
        && r == t.outcome
        && provider.registrations == old(provider.registrations) + [RegistrationRequestFor(applicationId, dto)]
        && provider.logins == old(provider.logins)
        && userService.received == old(userService.received) + t.addUserCalls
        && res.cookies == ApplyCookies(old(res.cookies), t.cookieWrites)
    {
      var registered := provider.Register(RegistrationRequestFor(applicationId, dto), reply);
      if registered.Rejected? {
        r := ClassifySignUpError(registered.error);
        return;
      }
      var rsp := registered.response;
      var thrown := userService.AddUser(UserEntity(rsp.user, rsp.registration), faults.addUser);
      if thrown.Some? {
        r := ClassifySignUpError(thrown.value);
        return;
      }
      thrown := SetTokenCookies(res, rsp.token, rsp.refreshToken, faults.cookies);
      if thrown.Some? {
        r := ClassifySignUpError(thrown.value);
        return;
      }
      r := Ok(rsp.user.id);
    }

    /**
     `signInUser(res, signInDto)`: `reply` is the provider's answer to the
     login, `faults` the errors thrown by the cookie writes.
     */
    method SignInUser(res: Response, dto: SignInDto, reply: ProviderReply<LoginResponse>, faults: CookieFaults)
      returns (r: Outcome)
      modifies res, provider
      ensures var t := SignInEffects(reply, faults);
        && r == t.outcome
        && provider.logins == old(provider.logins) + [LoginRequestFor(applicationId, dto)]
        && provider.registrations == old(provider.registrations)
        && userService.received == old(userService.received)
        && res.cookies == ApplyCookies(old(res.cookies), t.cookieWrites)
    {
      var loggedIn := provider.Login(LoginRequestFor(applicationId, dto), reply);
      if loggedIn.Rejected? {
        r := ClassifySignInError(loggedIn.error);
        return;
      }
      var rsp := loggedIn.response;
      var thrown := SetTokenCookies(res, rsp.token, rsp.refreshToken, faults);
      if thrown.Some? {
        r := ClassifySignInError(thrown.value);
        return;
      }
      r := Ok(rsp.user.id);
    }
  }

  /**
   A successful sign-up on a fresh response, followed by a repeated sign-up
   that the provider rejects with 400: the first call persists once and
   leaves exactly the two token cookies; the second is a Conflict that
   persists nothing more and leaves the cookies as they were.
   */
  method SignUpTwice(dto: SignUpDto, rsp: RegistrationResponse, rejection: Failure)
    returns (first: Outcome, second: Outcome, cookies: map<string, string>, persisted: seq<UserEntity>)
    requires StrictEquals(rejection.statusCode, 400)
    ensures first == Ok(rsp.user.id) && second == Conflict(CONFLICT_MESSAGE)
    ensures cookies == map[ACCESS_TOKEN := rsp.token, REFRESH_TOKEN := rsp.refreshToken]
    ensures persisted == [UserEntity(rsp.user, rsp.registration)]
  {
    var provider := new IdentityProvider();
    var users := new UserService();
    var service := new AuthService("application", provider, users);
    var res := new Response();
    var noFaults := SignUpFaults(None, CookieFaults(None, None));
    first := service.SignUpUser(res, dto, Resolved(rsp), noFaults);
    SignUpCookieJar(map[], Resolved(rsp), noFaults);
    second := service.SignUpUser(res, dto, Rejected(rejection), noFaults);
    cookies, persisted := res.cookies, users.received;
  }
}
