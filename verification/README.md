# Authentication service: sign-up and sign-in

A Dafny model of `AuthService` from an e-commerce backend. The service stands
between the HTTP layer and a FusionAuth identity provider. It has two
operations:

- `signUpUser` registers the user with the provider. It then stores a local
  user record through `UserService.addUser`, sets an access-token cookie and
  a refresh-token cookie on the response, and returns the provider's user id.
- `signInUser` logs the user in with the provider, sets the same two cookies
  and returns the provider's user id.

Each operation wraps all of its steps in one `try`. Its `catch` turns
whatever was thrown into a domain exception, or in one sign-up case throws the
caught error again unchanged.

The model has three modules:

- `AuthTypes` (`auth_types.dfy`) holds the values. A caught error is a
  `Failure` with the two fields the catch blocks read, `statusCode` and
  `status`. Each field is absent, a number or a non-number, so JavaScript's
  `=== 400` is modelled exactly. An operation ends in an `Outcome`:
  `Ok(id) | Conflict(msg) | NotFound(msg) | Internal(msg) | Rethrow(err)`.
- `ErrorPolicy` (`error_policy.dfy`) holds the two catch blocks. Each is
  written as the chain of `if`s the service runs. Each is also written as a
  first-match decision table (`Decide`), and lemmas prove the two forms agree
  on every error.
- `AuthService` (`auth_service.dfy`) holds the operations. `SignUpEffects`
  and `SignInEffects` say, as values, what one call does: its outcome, the
  `addUser` calls it makes, and the cookie writes that take effect. The
  collaborators are classes that record what they are asked: `Response` with
  its cookie map, `UserService` with the entities it received, and
  `IdentityProvider` with its requests. The `AuthService.SignUpUser` and
  `AuthService.SignInUser` methods run the steps in order against these
  objects. They are proved to do exactly what the effects functions say.

The collaborators' answers are parameters of the operations. These are the
provider's reply, plus the error (if any) thrown by `addUser` and by each
cookie write. Those calls are foreign code, so they are not computed here.

`addUser` (line 55) and the cookie writes (lines 66-75) are inside the same
`try` as `register`. So their errors go through the sign-up catch block: a 400 `statusCode` becomes
Conflict, a 400 `status` is thrown again unchanged, and anything else becomes
Internal.

## Model

| member | source | states |
|---|---|---|
| `ErrorPolicy.ClassifySignUpError` | src/services/auth/auth.service.ts:85-97 | Conflict exactly when `statusCode === 400`. The same error object is thrown again exactly when `statusCode !== 400` and `status === 400`. Internal in every other case. The messages are the source's strings. |
| `ErrorPolicy.ClassifySignInError` | src/services/auth/auth.service.ts:130-140 | NotFound exactly when `statusCode === 404`, and Internal otherwise, with the source's messages. |
| `ErrorPolicy.DecideFirstMatch` | src/services/auth/auth.service.ts:86-97 | A chain of guarded throws is first-match. The earliest matching row decides, whatever later rows say. With no match, the fallback is thrown. |
| `ErrorPolicy.SignUpFollowsTable` | src/services/auth/auth.service.ts:86-97 | The sign-up catch block equals the table "statusCode 400 → Conflict, then status 400 → rethrow, else Internal" on every error. |
| `ErrorPolicy.SignInFollowsTable` | src/services/auth/auth.service.ts:130-140 | The sign-in catch block equals the table "statusCode 404 → NotFound, else Internal" on every error. |
| `ErrorPolicy.SignUpStatusCodeTakesPrecedence` | src/services/auth/auth.service.ts:86-95 | An error with 400 in both `statusCode` and `status` is a Conflict and is never thrown again raw. |
| `ErrorPolicy.SignInNeverRethrows` | src/services/auth/auth.service.ts:130-140 | Sign-in never throws the caught error itself. `status === 404` alone, or `statusCode === 400`, gives Internal. |
| `AuthService.TokenCookieWrites` | src/services/auth/auth.service.ts:65-75 | The two cookie writes take effect as a prefix of [access, refresh]. A throwing access write stops both. A throwing refresh write leaves the access cookie. Nothing is thrown only if neither write throws. |
| `AuthService.SignUpEffects` | src/services/auth/auth.service.ts:37-99 | Success holds exactly when registration, `addUser` and both cookie writes succeed. It returns the provider's `user.id`. It persists exactly once after a successful registration and never after a rejected one. It sets cookies only after persistence succeeded, and only with the registration's `token`/`refreshToken`. A throwing access write sets no cookie. A throwing refresh write leaves only the access cookie written. Errors from `register`, from `addUser` and from either cookie write go through the sign-up catch block. |
| `AuthService.SignInEffects` | src/services/auth/auth.service.ts:101-142 | Sign-in never calls `addUser`. On success it writes exactly the two cookies from the login's tokens and returns the provider's `user.id`. A rejected login or a throwing access write sets no cookie. A throwing refresh write leaves only the access cookie written. Errors from `login` and from either cookie write go through the sign-in catch block. It never rethrows and never yields Conflict. |
| `AuthService.ApplyCookiesKeys` | src/services/auth/auth.service.ts:66-75 | After a series of `res.cookie` writes, the response carries exactly its earlier cookies plus the written names. |
| `AuthService.ApplyCookiesUntouched` | src/services/auth/auth.service.ts:66-75 | A cookie whose name no write uses keeps its earlier value. |
| `AuthService.ApplyTokenCookies` | src/services/auth/auth.service.ts:66-75 | Writing the token cookies sets ACCESS_TOKEN to the token and REFRESH_TOKEN to the refresh token, replacing earlier values. |
| `AuthService.TokenWritesTouchOnlyTokenCookies` | src/services/auth/auth.service.ts:66-75 | However far the two token-cookie writes get, they add no cookie name other than the two token names and change no other cookie's value. |
| `AuthService.SignUpCookieJar` | src/services/auth/auth.service.ts:39-78 | After a successful sign-up, the response holds both token cookies, and a fresh response holds exactly those two. If registration, `addUser` or the access write failed, the cookies are unchanged. If only the refresh write failed, the access cookie stays set. No other cookie is added or changed. |
| `AuthService.SignInCookieJar` | src/services/auth/auth.service.ts:103-122 | After a successful sign-in, the response holds both token cookies from the login, and a fresh response holds exactly those two. If the login was rejected or the access write failed, the cookies are unchanged. If only the refresh write failed, the access cookie stays set. No other cookie is added or changed. |
| `AuthService.Response.SetCookie` | src/services/auth/auth.service.ts:66-70 | `res.cookie` adds or replaces one cookie, unless it throws, in which case the cookies are unchanged. |
| `AuthService.UserService.AddUser` | src/services/auth/auth.service.ts:55-60 | Each `addUser` call is received once, with the provider user and registration, whether or not it then throws. |
| `AuthService.IdentityProvider.Register` | src/services/auth/auth.service.ts:39-50 | One registration request is recorded per call, and the provider's reply is returned. |
| `AuthService.IdentityProvider.Login` | src/services/auth/auth.service.ts:103-107 | One login request (application id, email as login id, password) is recorded per call, and the provider's reply is returned. |
| `AuthService.AuthService.SetTokenCookies` | src/services/auth/auth.service.ts:111-121 | The two `res.cookie` calls change the response exactly as `TokenCookieWrites` says and throw what it says. |
| `AuthService.AuthService.SignUpUser` | src/services/auth/auth.service.ts:37-99 | Sends one registration request built from the sign-up body, and never a login. Returns or throws `SignUpEffects`' outcome. Gives `addUser` exactly its calls and sets exactly its cookie writes on the response. |
| `AuthService.AuthService.SignInUser` | src/services/auth/auth.service.ts:101-142 | Sends one login request and never a registration. Leaves the user service untouched. Returns or throws `SignInEffects`' outcome and sets exactly its cookie writes. |
| `AuthService.SignUpTwice` | src/services/auth/auth.service.ts:37-99 | A successful sign-up on a fresh response leaves exactly the two token cookies and one stored user. A repeated sign-up that the provider rejects with 400 is a Conflict, stores nothing more and changes no cookie. |

## Left out

- The FusionAuth client (`register`, `login`, token generation) and its configuration (application id, client secret) are foreign network calls. The provider's reply is a parameter of each operation. The application id is a constant of the service object.
- `UserMapper.fromFusionAuthUserToUserEntity` and the internals of `UserService.addUser` are not part of this model. The entity handed to `addUser` is the pair (provider user, registration) the mapper receives. Whether `addUser` fails is a parameter.
- A mapper that throws (lines 56-59 run before `addUser` is entered) is treated as a throwing `addUser` call. The model then records one `addUser` call where the code makes none. The thrown error goes through the same catch block either way.
- `cookieOptions()` and the attributes it supplies (domain, secure, expiry) are not modelled. The cookie names `cookieConstants.ACCESS_TOKEN` and `cookieConstants.REFRESH_TOKEN` live in a file that is not part of this model. They are placeholders here, assumed only to differ. A `cookieOptions()` call that throws is not a separate step. It behaves like a throwing access-cookie write.
- Logging (winston, `console.log`, `JSON.stringify(err)`) has no effect on results and is not modelled. A `JSON.stringify` that throws inside the catch block is not modelled either.
- Async suspension is not modelled. Each call is awaited before the next, so the model is straight-line.
- JavaScript faults in the success path are not modelled. These include a provider response without `user` or tokens, or a thrown `null`/`undefined` whose field access itself throws. A `statusCode` or `status` that is a non-integral number is not modelled either. Numeric fields are integers, absent, or non-numbers.
- NestJS dependency injection, decorators and `src/modules/user.module.ts` are wiring only.
- Thrown-object identity is value identity here. `Rethrow(err)` carries the very `Failure` value that was caught.
