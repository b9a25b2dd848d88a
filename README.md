# OAuth 2.0 authorization server of the oauth2 app, in Dafny

This project models the authorization-server core of the `oauth2` NestJS app and proves properties of it. The core has two parts:

- **The service, `Oauth2Service`.** It has four stores: clients, users, authorization codes and token pairs. Its operations register and soft-delete clients and users. It authenticates a client for a grant type and checks a user's password. It issues single-use authorization codes and redeems them once, with four ordered checks. It issues access/refresh pairs, looks them up with expiry, and revokes a pair through either half. It also filters requested scopes against a client's allow-list and checks that a redirect URI is registered.
- **The controller, `Oauth2Controller`.** It implements the protocol endpoints on top of the service:
  - the token endpoint's grant dispatch: `authorization_code`, `refresh_token`, `password` and `client_credentials` (sections 4.1, 4.3, 4.4 and 6 of RFC 6749);
  - the authorize redirect for the `code` and `token` response types (sections 4.1 and 4.2 of RFC 6749);
  - introspection, shaped like section 2.2 of RFC 7662;
  - revocation, in the style of section 2 of RFC 7009;
  - userinfo;
  - the comma join and split of a client's `allowedGrantTypes`.

## How the repository is modelled

- **Modules and files:**
  - `entities.dfy` (module `Entities`): the four records as datatypes, `Option` and `Result`, the lifetimes, and the `Error` type with the source's messages.
  - `text.dfy` (module `Text`): JavaScript `split`, `join` and `startsWith` on strings, with their round-trip lemmas. `"".split(sep)` is `[""]` and `[].join(sep)` is `""`.
  - `service.dfy` (module `Service`): class `Oauth2Service`, plus the pure scope and redirect checks.
  - `controller.dfy` (module `Controller`): class `Oauth2Controller`, plus the redirect, scope and response builders.
  - `flow.dfy` (module `Flow`): a scenario built on the app's end-to-end flow test, extended with introspection and a second revocation, as a chain of methods with exact contracts.
- **Stores.** Each store is a `map` field that the service's methods reassign:
  - clients are keyed by row `id`;
  - users are keyed by row `id`;
  - codes are keyed by the code string;
  - pairs are keyed by the access token.
- **Relations as keys.** A code or a pair keeps its client and its user as row ids. Reading one resolves the ids, as TypeORM loads a relation.
- **Invariant `Oauth2Service.Valid()`.** It keeps the keys consistent, and makes `clientId`, `username`, `email` and `refreshToken` unique. It also keeps every relation pointing at a stored row, and no string is both an access token and a refresh token.
- **Read-only and mutating operations.** Read-only operations are functions with `reads` clauses. Operations that change a store are methods with `modifies`. Each method states the whole new state.
- **Inputs instead of I/O.**
  - The clock is a parameter `now`, an integer in milliseconds (as `Date.getTime()` gives).
  - Random strings are parameters the caller promises are fresh: row ids, client credentials, codes and token halves (`FreshTokenPair`, `ClientIdUnused`).
  - bcrypt is replaced by a deterministic `Hash`, which keeps bcrypt's `$2b$10$` prefix, and by `Verify(p, d)`, which holds when `Hash(p) == d`. `VerifyHash` proves that a digest verifies its own password and no other; this second half holds only for the stand-in (see "Left out").
- **JavaScript truthiness.** `Present(s)` is JavaScript truthiness of an optional string: present and non-empty. `OrEmpty` is `s || ''`. An array is always truthy, so `createClient` joins even an empty grant-type list.

### Where the code departs from the RFCs and its own comments

- **Empty scope allow-list.** A client whose list is empty (`Some([])`) gets no scopes at all, because `![]` is false in JavaScript. Only a null list lets every requested scope through.
- **Authorization-code grant scopes.** This grant issues the request's scopes, filtered by the client's list. It does not use the scopes stored with the code.
- **Authorize errors.** An unknown client or an unregistered redirect URI still redirects to the requested URI, with `error=server_error` and the exception's message ("Client not found", "Invalid redirect URI").
- **Refresh grant scopes.** The new pair keeps the old scopes whenever the filtered request is empty, including when scopes were requested and all of them were dropped.
- **Refresh grant client.** The refresh grant does not check that the refresh token was issued to the requesting client. The new pair belongs to the requesting client.
- **Client secret.** The secret is compared by plain equality.
- **Userinfo after deactivation.** A live token of a deactivated user still opens the userinfo. The authorization-code and refresh grants also issue pairs for the stored user without checking `active`.
- **Introspection with a refresh hint.** It reports the access half's expiry as `exp`.
- **Token ownership.** Revocation and introspection authenticate the requesting client but never check that the token was issued to it (oauth2.controller.ts 358-361 and 373-383). Any registered client can revoke or inspect any pair.
- **No URL-encoding.** `state`, the code, the access token and `error_description` are put into the redirect location as they are (oauth2.controller.ts 219, 236, 244-248, 251 and 255). The `Params` lemmas therefore require the inserted values to be free of '&'.

## Model

| member | source | states |
|---|---|---|
| Entities.OrEmpty | services/apps/oauth2/src/oauth2.controller.ts:219 | `state \|\| ''` is the state when it is present and non-empty, and "" otherwise |
| Entities.Error.Status | services/apps/oauth2/src/oauth2.service.ts:43-341 | each error maps to the exception class the code throws (the service's here, the controller's at oauth2.controller.ts 208-418): NotFound only for the two lookups, Unauthorized only for the client, credential and token failures, BadRequest otherwise |
| Entities.AuthorizeMessagesPlain | services/apps/oauth2/src/oauth2.controller.ts:255 | the two messages `authorize` can copy into its error redirect, "Client not found" and "Invalid redirect URI", hold no '&' |
| Text.Split | services/apps/oauth2/src/oauth2.controller.ts:88 | `split` always returns at least one piece, and no piece contains the separator |
| Text.SplitJoin | services/apps/oauth2/src/oauth2.controller.ts:45-50 | splitting a joined non-empty list of separator-free strings gives back the list |
| Text.SplitJoinEmpty | services/apps/oauth2/src/oauth2.controller.ts:48 | the empty list is the one case the round trip loses: it comes back as `[""]` |
| Text.JoinSplit | services/apps/oauth2/src/oauth2.controller.ts:278 | joining the pieces of any string with its separator gives back the string |
| Text.SplitAfterPrefix | services/apps/oauth2/src/oauth2.controller.ts:410-414 | a string that starts with a separator-free prefix and then the separator has that prefix as its first piece and a second piece |
| Text.SplitPair | services/apps/oauth2/src/oauth2.controller.ts:414 | `a + sep + t` splits into exactly `[a, t]` when neither part holds the separator |
| Text.Join | services/apps/oauth2/src/oauth2.controller.ts:48 | a non-empty list's join starts with its first element |
| Text.StartsWithConcat | services/apps/oauth2/src/oauth2.controller.ts:410 | `startsWith(prefix)` holds exactly when the string is the prefix followed by the rest, and every `prefix + t` starts with the prefix |
| Service.VerifyHash | services/apps/oauth2/src/oauth2.service.ts:100-135 | a stored digest verifies the password it was made from and no other password |
| Service.Hash | services/apps/oauth2/src/oauth2.service.ts:100 | a digest carries bcrypt's `$2b$10$` prefix for cost 10 |
| Service.Verify | services/apps/oauth2/src/oauth2.service.ts:135 | a password verifies against its own digest, and only a digest with the bcrypt prefix verifies anything |
| Service.Merge | services/apps/oauth2/src/oauth2.service.ts:61-65 | a patch overwrites exactly the fields it gives, and a null `scopes` is copied in as null; id, clientId, secret and isPublic never change |
| Service.MergeNullScopesOpens | services/apps/oauth2/src/oauth2.service.ts:61-354 | merging (lines 61-65) `scopes: null` removes the allow-list, so every later request passes `validateScopes` (lines 351-354) whole |
| Service.MergeIdempotent | services/apps/oauth2/src/oauth2.service.ts:61-65 | merging the same patch twice gives the record of merging it once |
| Service.MergeEmpty | services/apps/oauth2/src/oauth2.service.ts:61-65 | a patch whose every field is undefined leaves the record unchanged |
| Service.ValidateRedirectUri | services/apps/oauth2/src/oauth2.service.ts:347-349 | the URI is accepted exactly when it is an element of the client's registered list |
| Service.FilterAllowed | services/apps/oauth2/src/oauth2.service.ts:357 | the result is an order-preserving subsequence of the request that keeps each allowed scope as often as it was requested and drops every other scope |
| Service.ValidateScopes | services/apps/oauth2/src/oauth2.service.ts:351-358 | a null allow-list returns the request unchanged; otherwise the result is the filtered subsequence, and an empty list drops every scope |
| Service.FilterAllAllowed | services/apps/oauth2/src/oauth2.service.ts:357 | a request whose every scope is allowed survives filtering unchanged |
| Service.ValidateScopesKeepsAllowed | services/apps/oauth2/src/oauth2.service.ts:351-358 | a request within the allow-list, or any request when there is no list, is granted whole |
| Service.ScopeExamples | services/apps/oauth2/src/oauth2.service.ts:351-358 | on a "read write" request, the list `["read"]` keeps only "read", and a null list keeps both |
| Service.IssuedPair | services/apps/oauth2/src/oauth2.service.ts:228-250 | the pair holds the two strings, the client, the given user and scopes and the issue time; its access half expires an hour after issue and its refresh half thirty days after, so always later |
| Service.AllowedGrantTypes | services/apps/oauth2/src/oauth2.service.ts:336-338 | the allowed grant types are at least one comma-free string, and joining them with ',' gives back the stored string |
| Service.Oauth2Service.constructor | services/apps/oauth2/src/oauth2.service.ts:15-24 | a new service has four empty stores and satisfies the invariant |
| Service.Oauth2Service.CreateClient | services/apps/oauth2/src/oauth2.service.ts:27-35 | exactly one active client is added, with the given fields and fresh credentials; nothing else changes |
| Service.Oauth2Service.FindClientById | services/apps/oauth2/src/oauth2.service.ts:37-47 | the client is found exactly when it is stored and active; otherwise "Client not found" |
| Service.Oauth2Service.ActiveClient | services/apps/oauth2/src/oauth2.service.ts:320-322 | the result is the active client with that clientId, when one exists |
| Service.Oauth2Service.FindClientByClientId | services/apps/oauth2/src/oauth2.service.ts:49-59 | the result is the active client with that clientId; otherwise "Client not found" |
| Service.Oauth2Service.UpdateClient | services/apps/oauth2/src/oauth2.service.ts:61-65 | an active client is replaced by its merge with the patch, an explicit null `scopes` included; an unknown or inactive one gives "Client not found" and nothing changes |
| Service.Oauth2Service.DeleteClient | services/apps/oauth2/src/oauth2.service.ts:67-72 | only `active` is cleared; afterwards the client is neither found by id nor authenticated for any secret or grant type |
| Service.Oauth2Service.ValidateClient | services/apps/oauth2/src/oauth2.service.ts:315-345 | in order: no active client with that clientId gives "Invalid client"; a wrong secret on a non-public client gives "Invalid client credentials"; a grant type outside the comma-split list is not allowed; otherwise the stored client is returned, with no store changed; every failure is an Unauthorized exception |
| Service.Oauth2Service.CreateUser | services/apps/oauth2/src/oauth2.service.ts:81-108 | a username or email held by any user, active or not, gives "Username or email already exists"; then a missing password gives "Password is required"; otherwise exactly one active user with the password's digest is added |
| Service.Oauth2Service.FindUserById | services/apps/oauth2/src/oauth2.service.ts:110-120 | the user is found exactly when it is stored and active; otherwise "User not found" |
| Service.Oauth2Service.FindUserByUsername | services/apps/oauth2/src/oauth2.service.ts:122-126 | the result is the active user with that username, or none |
| Service.Oauth2Service.ValidateUser | services/apps/oauth2/src/oauth2.service.ts:128-142 | the result is the active user with that username whose digest verifies the password, or none |
| Service.Oauth2Service.DeleteUser | services/apps/oauth2/src/oauth2.service.ts:155-160 | only `active` is cleared; afterwards the user is not found by id and no password validates them |
| Service.Oauth2Service.GenerateAuthorizationCode | services/apps/oauth2/src/oauth2.service.ts:163-187 | exactly one code is added, expiring ten minutes after `now`, with the given redirect URI, scopes, client and user; it returns that code and nothing else changes |
| Service.Oauth2Service.CheckAuthorizationCode | services/apps/oauth2/src/oauth2.service.ts:194-214 | in order: unknown code, code of another client, different redirect URI, then `now > expiresAt`; each error holds exactly when the earlier checks pass and its own fails; every failure is a BadRequest exception |
| Service.Oauth2Service.ValidateAuthorizationCode | services/apps/oauth2/src/oauth2.service.ts:189-219 | the outcome is the ordered check; a failure leaves every store unchanged; a success removes the code, so a second redemption fails as an invalid code |
| Service.Oauth2Service.GenerateAccessToken | services/apps/oauth2/src/oauth2.service.ts:221-252 | exactly one pair is added for the two fresh strings: access expiry `now` + 1 h, refresh expiry `now` + 30 d, the given scopes and client, and a user only when one is given |
| Service.Oauth2Service.GenerateRefreshToken | services/apps/oauth2/src/oauth2.service.ts:254-263 | exactly the pair `generateAccessToken` describes is added, other pairs keep their values, and the refresh half is returned |
| Service.Oauth2Service.ValidateToken | services/apps/oauth2/src/oauth2.service.ts:265-280 | none exactly when no pair has that access token or `now` is after its expiry (the pair is still valid at the expiry instant); the function only reads |
| Service.Oauth2Service.ValidateRefreshToken | services/apps/oauth2/src/oauth2.service.ts:282-297 | none exactly when no pair has that refresh token or `now` is after the refresh expiry; the function only reads |
| Service.Oauth2Service.FindToken | services/apps/oauth2/src/oauth2.service.ts:300-305 | the result is the pair one of whose halves is the string, when there is one |
| Service.Oauth2Service.RevokeToken | services/apps/oauth2/src/oauth2.service.ts:299-313 | true exactly when a pair had the string as either half, and then that whole pair is removed; otherwise false and nothing changes; afterwards neither half validates, so a second revocation answers false |
| Controller.DefaultGrantTypesSplit | services/apps/oauth2/src/oauth2.controller.ts:45 | the default "authorization_code,refresh_token" reads back as its two grant types |
| Controller.StoredGrantTypes | services/apps/oauth2/src/oauth2.controller.ts:45-50 | the stored string splits on ',' back into a non-empty comma-free list as given; with no list it is the default, which splits into "authorization_code" and "refresh_token"; an empty list is stored as "", which reads back as `[""]` |
| Controller.ToResponse | services/apps/oauth2/src/oauth2.controller.ts:61-75 | the response carries the stored grant types split on ',' and the client's identity as stored |
| Controller.RequestedScopes | services/apps/oauth2/src/oauth2.controller.ts:278 | the request asks for no scopes exactly when `scope` is absent or empty, and joining the requested scopes with ' ' gives back `scope` |
| Controller.ClaimsOf | services/apps/oauth2/src/oauth2.controller.ts:421-430 | the claims carry the user's id as `sub`, the username, the email and both names as given; `name` is "<first> <last>" exactly when both names are present and non-empty |
| Controller.Respond | services/apps/oauth2/src/oauth2.controller.ts:334-340 | the answer carries the pair's two halves, `token_type` "bearer" and the scopes joined with ' '; a pair issued at `now` has `expires_in` 3600 |
| Controller.CodeRedirect | services/apps/oauth2/src/oauth2.controller.ts:236 | the code redirect goes to the requested redirect URI |
| Controller.TokenRedirect | services/apps/oauth2/src/oauth2.controller.ts:244-248 | the implicit-flow redirect goes to the requested redirect URI |
| Controller.ErrorRedirect | services/apps/oauth2/src/oauth2.controller.ts:251 | the error redirect goes to the requested redirect URI |
| Controller.ServerErrorRedirect | services/apps/oauth2/src/oauth2.controller.ts:255 | the catch-all redirect goes to the requested redirect URI |
| Controller.CodeRedirectParams | services/apps/oauth2/src/oauth2.controller.ts:236 | the redirect is the URI, then `?`, then parameters that split on '&' into `code=<c>` and, only when a state is present, `state=<s>` |
| Controller.TokenRedirectParams | services/apps/oauth2/src/oauth2.controller.ts:244-248 | the redirect is the URI, then `#`, then the parameters `access_token=<a>`, `token_type=bearer`, `expires_in=3600` and the optional `state=<s>` |
| Controller.ErrorRedirectParams | services/apps/oauth2/src/oauth2.controller.ts:219 | an error redirect's parameters are `error=<e>` and `state=<s or empty>` |
| Controller.AuthorizeErrorParams | services/apps/oauth2/src/oauth2.controller.ts:253-256 | the redirect `authorize` gives for "Client not found" or "Invalid redirect URI" is the URI, then `?`, then exactly `error=server_error`, the message and the state |
| Controller.ServerErrorRedirectParams | services/apps/oauth2/src/oauth2.controller.ts:255 | the catch-all redirect is the URI, then `?`, then exactly the parameters `error=server_error`, `error_description=<message>` and `state=<s or empty>` |
| Controller.StateSuffix | services/apps/oauth2/src/oauth2.controller.ts:236 | without a present state nothing is appended; with one the suffix is `&state=` followed by the state |
| Controller.StateSuffixSplit | services/apps/oauth2/src/oauth2.controller.ts:236 | a parameter followed by the state suffix splits into the parameter and, when present, the state |
| Controller.BearerToken | services/apps/oauth2/src/oauth2.controller.ts:410-414 | "Bearer <t>", with no space in t, passes the prefix check and its second piece is t |
| Controller.BearerPieces | services/apps/oauth2/src/oauth2.controller.ts:414 | the token taken from a header is exactly what follows "Bearer ", up to the next space |
| Controller.FirstPiece | services/apps/oauth2/src/oauth2.controller.ts:414 | a string is its first piece, alone or followed by the separator |
| Controller.Oauth2Controller.constructor | services/apps/oauth2/src/oauth2.controller.ts:34 | the controller works on the given service |
| Controller.Oauth2Controller.CreateClient | services/apps/oauth2/src/oauth2.controller.ts:42-76 | the client is stored with its grant types joined by ',' (default "authorization_code,refresh_token") and `isPublic` false unless true is given; `getClient` then returns the same response; a non-empty comma-free list reads back as given |
| Controller.Oauth2Controller.GetClient | services/apps/oauth2/src/oauth2.controller.ts:78-95 | an active client is returned with its grant types split on ','; otherwise "Client not found" |
| Controller.Oauth2Controller.UpdateClient | services/apps/oauth2/src/oauth2.controller.ts:97-129 | a given grant-type list is stored joined by ',', and the rest of the patch, a null `scopes` included, is merged as the service does; an unknown client changes nothing |
| Controller.Oauth2Controller.Token | services/apps/oauth2/src/oauth2.controller.ts:259-341 | a client error comes first and changes nothing. Then each of the four grants behaves as its own row states, and any other grant type gives "Unsupported grant type". A success stores the fresh pair and answers "bearer", 3600 and the space-joined scopes. A failure leaves codes and tokens unchanged. A refresh retires the old access token and spends the old refresh token |
| Controller.Oauth2Controller.AuthorizationCodeGrant | services/apps/oauth2/src/oauth2.controller.ts:282-289 | a missing code or redirect URI is a bad request; the code's ordered check decides the error; success removes the code and issues the request's filtered scopes for the code's user |
| Controller.Oauth2Controller.RefreshTokenGrant | services/apps/oauth2/src/oauth2.controller.ts:291-310 | a missing or unresolved refresh token is a bad request. Otherwise the old pair is removed and a pair is issued for its user, with the filtered request scopes when there are any and the old scopes otherwise. The old refresh token then validates at no time |
| Controller.Oauth2Controller.Rotate | services/apps/oauth2/src/oauth2.controller.ts:301-309 | the old pair is removed and exactly the pair `generateAccessToken` describes for the old pair's user is added; the old refresh token then resolves at no time |
| Controller.Oauth2Controller.PasswordGrant | services/apps/oauth2/src/oauth2.controller.ts:312-323 | a missing username or password is a bad request; credentials that do not validate give "Invalid username or password"; otherwise a pair is issued for that user |
| Controller.Oauth2Controller.Authorize | services/apps/oauth2/src/oauth2.controller.ts:196-257 | in order: unknown client, then unregistered redirect URI, each redirecting with `server_error` and the message; then no user gives `login_required`. Then "code" stores exactly one code and "token" stores exactly one pair, each redirecting with it; any other type gives `unsupported_response_type`. Every error branch stores nothing, and the redirect always goes to the requested URI |
| Controller.Oauth2Controller.RevokeToken | services/apps/oauth2/src/oauth2.controller.ts:343-363 | a missing token, client_id or client_secret gives "Missing required parameters". A client not allowed "revoke_token" fails as the client check does. Both leave everything unchanged. Otherwise the answer is whether a pair was removed, and afterwards the token matches no pair |
| Controller.Oauth2Controller.IntrospectToken | services/apps/oauth2/src/oauth2.controller.ts:365-405 | the client must be allowed "introspection". A refresh hint resolves the refresh half; any other hint resolves the access half. An unresolved token gives exactly `{active: false}`. A resolved one reports its client's clientId, the space-joined scopes, "Bearer", exp and iat in seconds, and a username and sub exactly when it has a user |
| Controller.Oauth2Controller.UserInfo | services/apps/oauth2/src/oauth2.controller.ts:407-431 | "Access token is required" exactly when the header is missing or does not start with "Bearer ". Every other failure is "Invalid token or token has expired". A success carries exactly the claims of the owner of a live access token that the header names after "Bearer "; `name` is set only when both names are; both errors are Unauthorized exceptions |
| Controller.Oauth2Controller.UserInfoOfBearer | services/apps/oauth2/src/oauth2.controller.ts:407-431 | a "Bearer" header with a live access token that has an owner yields that owner's claims |
| Flow.TestClientGrantTypes | services/tests/oauth2/oauth2-flow.spec.ts:33 | the test client's five grant types read back as registered |
| Flow.ReadWrite | services/tests/oauth2/oauth2-flow.spec.ts:159 | "read write" requests both scopes, the test client grants both, and they join back to "read write" |
| Flow.ClientAuthenticates | services/tests/oauth2/oauth2-flow.spec.ts:29-65 | the registered client authenticates for each grant type it was registered with |
| Flow.RegisterClient | services/tests/oauth2/oauth2-flow.spec.ts:29-65 | a fresh server stores exactly the test client, and the response lists its grant types and scopes as given |
| Flow.Register | services/tests/oauth2/oauth2-flow.spec.ts:67-101 | the test user is stored too, with the password's digest |
| Flow.SignIn | services/tests/oauth2/oauth2-flow.spec.ts:134-192 | the password grant stores exactly the first pair and answers "bearer", 3600 and "read write" |
| Flow.OwnerIntrospection | services/apps/oauth2/src/oauth2.controller.ts:365-405 | introspecting the first access token reports "client-id", "testuser", "read write", "Bearer", its times in seconds and the user's row id |
| Flow.Introspect | services/apps/oauth2/src/oauth2.controller.ts:365-405 | the introspection answer for the first access token |
| Flow.OwnerUserInfo | services/tests/oauth2/oauth2-flow.spec.ts:194-215 | a live access token of the test user opens the userinfo with that user's claims |
| Flow.ReadUserInfo | services/tests/oauth2/oauth2-flow.spec.ts:194-215 | the userinfo with the first access token answers the test user's claims |
| Flow.Session | services/tests/oauth2/oauth2-flow.spec.ts:134-215 | the test's password grant and userinfo, with an introspection step between them that the test does not take and that follows oauth2.controller.ts 365-405; the stores after each step are exact |
| Flow.TestUserName | services/apps/oauth2/src/oauth2.controller.ts:427 | the user's `name` is "Test User" |
| Flow.FoundForRefresh | services/tests/oauth2/oauth2-flow.spec.ts:217-229 | the first refresh token is still live and names the first pair |
| Flow.NoScopeRequested | services/tests/oauth2/oauth2-flow.spec.ts:218-223 | a refresh request without a scope is granted no scope of its own |
| Flow.Refresh | services/tests/oauth2/oauth2-flow.spec.ts:217-262 | refreshing replaces the first pair by exactly the second, with the old scopes, and answers with a different access token |
| Flow.FoundForRevocation | services/tests/oauth2/oauth2-flow.spec.ts:270-282 | the second access token names the second pair |
| Flow.Revoke | services/tests/oauth2/oauth2-flow.spec.ts:264-290 | revoking the second access token answers true and empties the token store |
| Flow.RevokeAgain | services/apps/oauth2/src/oauth2.service.ts:299-313 | revoking the same token again answers false |
| Flow.RevokedUserInfo | services/tests/oauth2/oauth2-flow.spec.ts:292-302 | with the pair revoked, the userinfo refuses the token as invalid |
| Flow.PasswordRefreshRevoke | services/tests/oauth2/oauth2-flow.spec.ts:29-304 | the test's walk (registration, password grant, userinfo, refresh to a different access token, revocation and the refused userinfo) extended with an introspection step (oauth2.controller.ts 365-405) and a second revocation answering false (oauth2.service.ts 299-313) |

## Left out

- NestJS routing, decorators, HTTP status codes and `@Res` redirects: outcomes are `Result` values, an `Error` carries its status class and message, and a redirect is its location string.
- DTO validation with class-validator: the fields the token, authorize and revoke endpoints read are modelled as optional strings where a DTO makes them optional, and a missing or empty field takes the same paths as in the code. The one exception is introspection, below.
- Oauth2Controller.IntrospectToken: `client_id` and `client_secret` are read from the body without validation (oauth2.controller.ts 369-370; the introspection DTO checks only `token` and `token_type_hint`). A request without them reaches the TypeORM lookup of `validateClient` with `undefined` values; the model takes both as strings and does not capture this case.
- TypeORM: repositories, relation loading, `simple-array` column encoding, and `createdAt`/`updatedAt` auto-timestamps. The stores are maps, `createdAt` of a pair is `now` at issue, and the records' own `id` columns of codes and pairs are not kept.
- Controller.ToResponse: `allowedGrantTypes` is kept as the comma-joined string that `createClient` builds. TypeORM's `simple-array` column loads it back as an array, on which the `.split(',')` of `getClient` and `updateClient` (oauth2.controller.ts 88 and 122) would throw; `validateClient` accepts both forms. The round trip stated for `CreateClient` and `GetClient` holds only under the string stand-in.
- The nullable `redirectUris` column of a client and `scopes` column of a pair: both are lists here. `createClient` and `generateAccessToken` always supply them, but `updateClient` can store a null `redirectUris` (see below).
- Service.Merge: a JSON null for `name`, `redirectUris` or `active` is treated as an undefined field and skipped. The code merges it as null. A null `name` or `active` then fails the save on a NOT NULL column, and a null `redirectUris` is stored and makes every later `validateRedirectUri` throw. A null `scopes` is modelled.
- Service.Oauth2Service.UpdateClient: as for `Merge`, a null `name`, `redirectUris` or `active` in the patch is not modelled; a null `scopes` is, and removes the allow-list.
- Oauth2Controller.UpdateClient: the body can carry a null `scopes`, which is forwarded and stored as null; a null `name`, `redirectUris` or `active` is treated as absent, while the code forwards it (a null `allowedGrantTypes` is absent in the code too, since it is joined only when truthy).
- bcrypt: `Hash` and `Verify` stand in for `hash` and `compare`.
- Service.VerifyHash: its "no other password" half holds because the stand-in `Hash` is injective. bcrypt's `compare` looks only at the first 72 bytes of a password, so two passwords that agree on those bytes verify against the same digest; the model does not capture this truncation.
- `randomBytes` and `generateClientCredentials`: the generated strings are parameters that the caller promises are fresh.
- `Date`: the clock is the parameter `now` in milliseconds, and lifetimes are fixed millisecond offsets. Daylight-saving shifts of `setHours`/`setDate` are not modelled.
- Oauth2Controller.Token: `expires_in` is computed with the same `now` as the issue. The code reads `Date.now()` a second time, after the awaited save of the pair (oauth2.controller.ts 337), so it answers 3599 whenever at least a millisecond has passed since the issue.
- The read-then-remove race in code redemption and refresh rotation: each operation is one atomic step here.
- The hard-coded lookup of the user `'user1'` in `authorize`: the signed-in user is the parameter `user`, and `None` takes the `login_required` branch.
- `updateUser` and the user endpoints of the controller (`createUser`, `getUser`, `updateUser`, `deleteUser`): they are thin wrappers around the service operations, which are modelled, or outside the modelled core.
- `deleteClient` of the controller: it only calls `Oauth2Service.DeleteClient`.
- `getHello` and its tests.
- Oauth2Service.Valid: it assumes that no string is both an access token of one pair and a refresh token of another. With random 64-byte hex strings this does not happen. Without it, the `findOne` of `revokeToken` over both columns would be ambiguous.
