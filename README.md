# Dual-token authentication: a Dafny model

This project models the token-lifecycle core of a small credential-based authentication system. It has three parts:

- **Auth endpoint handlers** (module `AuthController`, with the token service in `Tokens`). Register, login, refresh, get-profile and update-profile run over an in-memory user store. Access tokens are signed with one secret and live 15 minutes. Refresh tokens are signed with another secret and live 7 days.
- **Transport interceptor** (module `Transport`). This is the client's axios instance. It attaches the stored access token as a bearer credential (section 2.1 of RFC 6750). On the first 401 of a request it posts the refresh token once and resends the request once.
- **Session manager** (module `AuthContext`). It holds the client state `{user, loading}` and the two stored tokens. Its operations are the startup probe, register, login, logout and profile update. Every call it makes goes through the transport.

How the model stands in for what it cannot see:
- The store is a `map` from id to record (`UserStore.users`). A counter (`nextId`) stands for the ObjectId the database assigns.
- bcrypt is a hash function `hash` that the model does not interpret. The salt from `genSalt` is a parameter.
- A JWT is the datatype `Jwt`. It is either `Signed(id, class, exp)`, where the class stands for the secret that signed it, or `Malformed`, which stands only for a truthy value that is not a token signed with either secret. A falsy `refreshToken` in a request body (missing, `null` or `""`) is `None`, and `!refreshToken` answers it with 401 "Refresh token required". Verification checks the secret first and then `now < exp`, where `exp` is the claim of section 4.1.4 of RFC 7519.
- The clock is a parameter `now`, in seconds.
- The server, as the client sees it, is a scripted `Network`. The n-th exchange gets the n-th scripted reply, or no reply once the script runs out. Every exchange is logged, so "how many refresh calls" is a question about the log.

Three behaviours of the code that a reader might not expect. The model follows the code in each:
- A refresh token that verifies but names a user who no longer exists gets 401, not 403. Only a token that fails verification gets 403 (authController.js:108-109 against 118-119).
- A refresh failure on the client removes both keys and redirects. The interceptor itself does not reset the session's `user`, and neither does anything else in the model. In a browser the page reload caused by `window.location.href` resets it, and the model leaves that reload out.
- The response interceptor also handles failed login and register calls. A login refused with 401, when a refresh token is stored, triggers a refresh, stores the new access token and posts the login again before the failure reaches the caller (`FailedLoginRenewsToken`). So "a failed login stores nothing" holds for `AuthProvider.Login` itself, not for the storage as a whole.

Files: `wrappers.dfy` (Option, Result), `js.dfy` (truthiness, `String(undefined)`), `tokens.dfy`, `auth_controller.dfy`, `api.dfy`, `auth_context.dfy`.

## Model

| member | source | states |
|---|---|---|
| Tokens.Verify | backend/controllers/authController.js:104-105 | A token verifies iff it was signed with the expected class's secret and `now < exp`. It then yields the token's id. A correctly signed token past its expiry fails as `Expired`, never as a bad signature. |
| Tokens.GenerateAccessToken | backend/controllers/authController.js:6-8 | The token verifies under the access secret to the given id for exactly 15 minutes after issue. It never verifies under the refresh secret. |
| Tokens.GenerateRefreshToken | backend/controllers/authController.js:11-13 | The token verifies under the refresh secret to the given id for exactly 7 days after issue. It never verifies under the access secret. |
| Tokens.IssuedPairAgrees | backend/controllers/authController.js:41-42 | The access and refresh tokens issued together carry the same user id. They are distinct, and the access token expires first. |
| AuthController.CompareHashed | backend/controllers/authController.js:69-70 | `compare(p, hash(p, salt))` holds for every password and salt. |
| AuthController.PatchOnlyName | backend/controllers/authController.js:148-150 | An update that gives only a non-empty name changes the name and leaves email, password hash and image unchanged. |
| AuthController.PatchFalsyIsIdentity | backend/controllers/authController.js:148-155 | If every field is missing or the empty string, the record is unchanged. A falsy value never overwrites. |
| AuthController.UserStore.FindByEmail | backend/controllers/authController.js:23-24 | Returns the stored record with that email when one exists, and nothing exactly when none does. |
| AuthController.UserStore.RegisterUser | backend/controllers/authController.js:22-52 | A taken email gives 400 "User already exists" and the store is unchanged. Otherwise exactly one record is added under a fresh id, holding `hash(password)`. The response is 201 with the password-free user and an access/refresh pair for that id. The store invariant (ids, unique emails) is kept. |
| AuthController.UserStore.LoginUser | backend/controllers/authController.js:63-87 | Status 200 iff some user has the email and the password matches their hash. Every other case, unknown email or wrong password, gives the same 401 "Invalid email or password". On success the response is that user without the password, plus both tokens for their id. |
| AuthController.UserStore.RefreshToken | backend/controllers/authController.js:98-119 | An absent token gives 401 "Refresh token required". A token failing refresh-secret verification (expired, forged, or access-class) gives 403 "Invalid refresh token". A verified token for a missing user gives 401 "Invalid refresh token". Otherwise the response is 200 with only a new access token, which verifies to the same id. |
| AuthController.UserStore.GetUserProfile | backend/controllers/authController.js:128-132 | A missing id gives 404 "User not found". Otherwise the response is 200 with the record without its password. |
| AuthController.UserStore.UpdateUserProfile | backend/controllers/authController.js:143-164 | A missing id gives 404 and the store is unchanged. Otherwise name, email and image are replaced only by truthy values, and the password is re-hashed only when a truthy one is given. The id never changes and the response omits the password. A clash with another user's email gives 500 and the store is unchanged. |
| AuthController.UserStore.RegisterThenLogin | backend/controllers/authController.js:33-77 | After registering with a fresh email, logging in with the same password succeeds for the same user and issues tokens for that id. |
| AuthController.UserStore.LoginRefreshProfile | backend/controllers/authController.js:76-132 | Within 7 days of login, the refresh token yields an access token. Verifying that token as the access guard does and fetching the profile returns the user who logged in. |
| Transport.Attach | frontend/Auth-Project/src/services/api.js:8-14 | The request carries `Authorization: Bearer <token>` iff a truthy token is stored. Otherwise the config is unchanged. |
| Transport.Dispatch | frontend/Auth-Project/src/services/api.js:8-45 | A whole request through `API` makes 1 to 3 exchanges. The first is the request with the attached header. The only refresh, if any, comes second. Each exchange consumes one scripted reply. The refresh token is never rewritten: it stays, or both keys are cleared. An already-marked request makes one exchange and changes no storage. A non-401 failure is rejected as it came. |
| Transport.HandleError | frontend/Auth-Project/src/services/api.js:19-43 | A non-401 or an already-marked request is rejected unchanged, with no call and no storage change. A first 401 sets `_retry`. With no refresh token the original error is rejected and storage is unchanged. If the refresh succeeds, the new access token is stored, the refresh token is kept, and the request is resent once with the new bearer and `_retry` still set; the result is whatever that resend gets. If the refresh fails, both keys are removed and the original error is rejected. |
| Transport.AtMostOneRefresh | frontend/Auth-Project/src/services/api.js:22-34 | Per original request: at most one refresh call, at most two attempts of the request itself, and no refresh at all for an already-marked request. |
| Transport.RenewalOn401 | frontend/Auth-Project/src/services/api.js:22-39 | The first 401 with a stored refresh token makes exactly one refresh call. On success the request is retried with the new token and succeeds iff the retry does. On failure both keys are cleared and the original 401 is rejected. |
| Transport.Api.RequestInterceptor | frontend/Auth-Project/src/services/api.js:8-14 | The config after the interceptor is `Attach` of the config before it and the stored tokens. |
| Transport.Api.Send | frontend/Auth-Project/src/services/api.js:8-45 | Result, config, storage and network log after `API(config)` are exactly those `Dispatch` gives for the state before. |
| Transport.Api.ResponseError | frontend/Auth-Project/src/services/api.js:19-43 | Result, config, storage and network log after the error handler are exactly those `HandleError` gives. |
| AuthContext.FailedLoginRenewsToken | frontend/Auth-Project/src/context/AuthContext.jsx:40-46 | For every reply script where the login gets a 401, the refresh a 2xx and the resent login a failure, with a refresh token stored: exactly one refresh is made, the new access token is stored with the refresh token kept, and the login is posted again with the new bearer. The failure then reaches the caller. |
| AuthContext.AuthProvider.constructor | frontend/Auth-Project/src/context/AuthContext.jsx:11-12 | The session starts with no user and `loading` set. |
| AuthContext.AuthProvider.CheckAuth | frontend/Auth-Project/src/context/AuthContext.jsx:18-30 | With no stored token there is no request and the user and storage are unchanged. With a token, the user becomes the fetched profile on success. On any failure both keys are removed and the user is null. In every case `loading` ends false. |
| AuthContext.AuthProvider.Register | frontend/Auth-Project/src/context/AuthContext.jsx:32-38 | On success the stored token and refresh token are the response's `accessToken` and `refreshToken`, and the user is the response data. On failure the user is unchanged and the method writes nothing: the storage is what the transport left. |
| AuthContext.AuthProvider.Login | frontend/Auth-Project/src/context/AuthContext.jsx:40-46 | Same as Register, for POST /login. |
| AuthContext.AuthProvider.Logout | frontend/Auth-Project/src/context/AuthContext.jsx:48-52 | Both keys are removed and the user is null, whatever the state before. A second logout therefore changes nothing. |
| AuthContext.AuthProvider.UpdateProfile | frontend/Auth-Project/src/context/AuthContext.jsx:54-58 | On success the user becomes the response data. The stored tokens are exactly what the transport left; the method itself never writes them. |
| AuthContext.AuthProvider.LogoutThenCheck | frontend/Auth-Project/src/context/AuthContext.jsx:18-52 | After logout, the startup probe sends nothing, and the session is unauthenticated with no tokens stored. |
| AuthContext.Mount | frontend/Auth-Project/src/context/AuthContext.jsx:10-30 | Mounting runs the probe once. Without a stored token the session comes up unauthenticated and nothing is sent. With one, it ends authenticated with the fetched profile, or unauthenticated with both keys cleared. |

## Left out

- The two signing secrets, `JWT_SECRET` and `REFRESH_TOKEN_SECRET`, come from the environment, and the code never checks that they differ. The model assumes they do. If they were equal, an access token would verify at /refresh, and the "never verifies under the other secret" halves of `GenerateAccessToken` and `GenerateRefreshToken` would not hold. Neither would the 403 of `RefreshToken` for an access-class token.
- JWT signatures and bcrypt salting and hashing are foreign libraries. A token is a datatype, and the hash is an uninterpreted function with the salt as a parameter. Hash collisions are not excluded, so a wrong password can match only through a collision of `hash`.
- The user schema and persistence are not part of this model. Mongoose `findOne`, `findById`, `create` and `save` become reads and writes of a map. The store's email uniqueness is the invariant `Valid()`. `createdAt`, `updatedAt` and `__v` are not modelled.
- The 500 "Server Error" branches for unexpected exceptions are left out, and the `error.message` detail is dropped. The one kept is an email clash on update, which the store's unique index rejects at `save`. The user schema (models/User.js) is not part of this model, so that unique index is assumed rather than read from the code.
- The access-guard middleware is not part of this model. `GetUserProfile` and `UpdateUserProfile` take the id it would put on the request. `LoginRefreshProfile` applies `Verify` with the access secret in its place.
- Request bodies sent by the client are not part of the model. The scripted network decides each reply, and an exchange is logged by verb, path and header.
- `window.location.href = '/login'` (api.js:38) is a browser side effect and is not modelled. In a browser it reloads the app and so resets the session state; the model keeps `user` as it was.
- Concurrent requests, each doing their own refresh, and promise interleavings are left out. Every request runs to completion before the next starts.
- `console.error`, React rendering, the pages, routing and `server.js` wiring are left out.
- Non-string JSON values in request bodies are not modelled. Update fields are missing or strings, and the empty string is the only falsy string.
