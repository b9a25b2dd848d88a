/**
 * The store operations of the OAuth 2.0 service (`Oauth2Service`): clients,
 * users, authorization codes and token pairs, over four in-memory stores.
 *
 * Randomly generated identifiers (client ids and secrets, codes, token
 * strings, row ids) are supplied by the caller, who promises that they are
 * fresh for the store; the clock `now` (milliseconds) is a parameter.
 */
module Service {
  import opened Entities
  import opened Text

  /** A digest of a password, standing in for `bcrypt.hash(password, 10)`. */
  function Hash(password: string): (r: string)
    ensures StartsWith(r, "$2b$10$")
  {
    "$2b$10$" + password
  }

  /** Standing in for `bcrypt.compare(password, digest)`. */
  predicate Verify(password: string, digest: string): (r: bool)
    ensures digest == Hash(password) ==> r
    ensures r ==> StartsWith(digest, "$2b$10$")
  {
    Hash(password) == digest
  }

  /** A stored digest verifies the password it was made from, and no other. */
  lemma VerifyHash(password: string, other: string)
    ensures Verify(password, Hash(password))
    ensures Verify(other, Hash(password)) ==> other == password
  {
    if Verify(other, Hash(password)) {
      assert Hash(other)[7..] == other;
      assert Hash(password)[7..] == password;
    }
  }

  /** The fields `createClient` receives from the controller. */
  datatype NewClient = NewClient(
    name: string,
    redirectUris: seq<string>,
    allowedGrantTypes: string,
    scopes: Option<seq<string>>,
    isPublic: bool)

  /**
   * The fields `updateClient` merges; `None` stands for an undefined field, which the merge skips.
   * `scopes` is nullable: `Some(None)` is an explicit null, which the merge copies in.
   */
  datatype ClientPatch = ClientPatch(
    name: Option<string>,
    redirectUris: Option<seq<string>>,
    allowedGrantTypes: Option<string>,
    scopes: Option<Option<seq<string>>>,
    active: Option<bool>)

  /** The fields `createUser` receives. */
  datatype NewUser = NewUser(
    username: string,
    password: Option<string>,
    email: string,
    firstName: Option<string>,
    lastName: Option<string>)

  /** The client record after merging a patch into it. */
  function Merge(c: Client, p: ClientPatch): (r: Client)
    ensures r.id == c.id && r.clientId == c.clientId && r.clientSecret == c.clientSecret
    ensures r.isPublic == c.isPublic
    ensures r.name == (if p.name.Some? then p.name.value else c.name)
    ensures r.redirectUris == (if p.redirectUris.Some? then p.redirectUris.value else c.redirectUris)
    ensures r.allowedGrantTypes == (if p.allowedGrantTypes.Some? then p.allowedGrantTypes.value else c.allowedGrantTypes)
    ensures r.scopes == (if p.scopes.Some? then p.scopes.value else c.scopes)
    ensures r.active == (if p.active.Some? then p.active.value else c.active)
  {
    c.(name := if p.name.Some? then p.name.value else c.name,
       redirectUris := if p.redirectUris.Some? then p.redirectUris.value else c.redirectUris,
       allowedGrantTypes := if p.allowedGrantTypes.Some? then p.allowedGrantTypes.value else c.allowedGrantTypes,
       scopes := if p.scopes.Some? then p.scopes.value else c.scopes,
       active := if p.active.Some? then p.active.value else c.active)
  }

  /** The grant types a client allows: its stored list split on ','. */
  function AllowedGrantTypes(c: Client): (r: seq<string>)
    ensures |r| >= 1 && FreeOf(r, ',')
    ensures Join(r, ',') == c.allowedGrantTypes
  {
    JoinSplit(c.allowedGrantTypes, ',');
    Split(c.allowedGrantTypes, ',')
  }

  /** `validateRedirectUri`: exact membership in the registered redirect URIs. */
  function ValidateRedirectUri(client: Client, redirectUri: string): (r: bool)
    ensures r <==> exists i :: 0 <= i < |client.redirectUris| && client.redirectUris[i] == redirectUri
  {
    redirectUri in client.redirectUris
  }

  /** `r` is `s` with some elements deleted, the rest kept in order. */
  predicate IsSubsequence(r: seq<string>, s: seq<string>)
    decreases |s|
  {
    if |s| == 0 then |r| == 0
    else (|r| > 0 && r[0] == s[0] && IsSubsequence(r[1..], s[1..])) || IsSubsequence(r, s[1..])
  }

  /** `scopes.filter(scope => allowed.includes(scope))`. */
  function FilterAllowed(scopes: seq<string>, allowed: seq<string>): (r: seq<string>)
    ensures IsSubsequence(r, scopes)
    ensures forall s :: multiset(r)[s] == if s in allowed then multiset(scopes)[s] else 0
    ensures forall s :: s in r <==> s in scopes && s in allowed
    decreases |scopes|
  {
    if |scopes| == 0 then []
    else
      var rest := FilterAllowed(scopes[1..], allowed);
      assert scopes == [scopes[0]] + scopes[1..];
      if scopes[0] in allowed then
        assert ([scopes[0]] + rest)[1..] == rest;
        [scopes[0]] + rest
      else
        rest
  }

  /**
   * `validateScopes`: a client without an allow-list (null) lets every requested
   * scope through; otherwise only the requested scopes on the list survive, in
   * order and with their repetitions. An empty list drops everything.
   */
  function ValidateScopes(client: Client, scopes: seq<string>): (r: seq<string>)
    ensures client.scopes.None? ==> r == scopes
    ensures client.scopes.Some? ==> IsSubsequence(r, scopes)
    ensures client.scopes.Some? ==> forall s :: s in r <==> s in scopes && s in client.scopes.value
    ensures client.scopes.Some? ==> forall s :: multiset(r)[s] == if s in client.scopes.value then multiset(scopes)[s] else 0
    ensures client.scopes == Some([]) ==> r == []
  {
    if client.scopes.None? then scopes else FilterAllowed(scopes, client.scopes.value)
  }

  /** Filtering keeps a request whose every scope is allowed exactly as it was. */
  lemma {:induction false} FilterAllAllowed(scopes: seq<string>, allowed: seq<string>)
    requires forall s :: s in scopes ==> s in allowed
    ensures FilterAllowed(scopes, allowed) == scopes
    decreases |scopes|
  {
    if |scopes| > 0 {
      assert scopes[0] in scopes;
      assert forall s :: s in scopes[1..] ==> s in scopes;
      FilterAllAllowed(scopes[1..], allowed);
      assert scopes == [scopes[0]] + scopes[1..];
    }
  }

  /** A request within the client's allow-list, or any request when there is none, survives whole. */
  lemma ValidateScopesKeepsAllowed(client: Client, scopes: seq<string>)
    requires client.scopes.Some? ==> forall s :: s in scopes ==> s in client.scopes.value
    ensures ValidateScopes(client, scopes) == scopes
  {
    if client.scopes.Some? {
      FilterAllAllowed(scopes, client.scopes.value);
    }
  }

  /** A patch that sets `scopes` to null removes the allow-list: every later request is granted whole. */
  lemma MergeNullScopesOpens(c: Client, p: ClientPatch, scopes: seq<string>)
    requires p.scopes == Some(None)
    ensures Merge(c, p).scopes.None?
    ensures ValidateScopes(Merge(c, p), scopes) == scopes
  { }

  /** Merging the same patch twice gives the record of merging it once. */
  lemma MergeIdempotent(c: Client, p: ClientPatch)
    ensures Merge(Merge(c, p), p) == Merge(c, p)
  { }

  /** A patch whose every field is undefined leaves the record as it was. */
  lemma MergeEmpty(c: Client)
    ensures Merge(c, ClientPatch(None, None, None, None, None)) == c
  { }

  /** On a "read write" request, the list `["read"]` keeps only "read", and a null list keeps both. */
  lemma ScopeExamples(client: Client)
    ensures ValidateScopes(client.(scopes := Some(["read"])), ["read", "write"]) == ["read"]
    ensures ValidateScopes(client.(scopes := None), ["read", "write"]) == ["read", "write"]
  {
  }

  /**
   * The pair `generateAccessToken` stores for these arguments; `user` is a row
   * id. The access half lives an hour from issue, the refresh half thirty days.
   */
  function IssuedPair(client: Client, user: Option<string>, scopes: seq<string>,
                      access: string, refresh: string, now: int): (r: Token)
    ensures r.accessToken == access && r.refreshToken == refresh
    ensures r.client == client.id && r.user == user && r.scopes == scopes && r.createdAt == now
    ensures r.accessTokenExpiresAt == r.createdAt + 3600000
    ensures r.refreshTokenExpiresAt == r.createdAt + 30 * 24 * 3600000
    ensures r.accessTokenExpiresAt < r.refreshTokenExpiresAt
  {
    Token(access, refresh, now + AccessTokenLifetime, now + RefreshTokenLifetime, scopes, client.id, user, now)
  }

  /** The in-memory stores behind the four repositories. */
  class Oauth2Service {
    /** Clients by row id. */
    var clients: map<string, Client>
    /** Users by row id. */
    var users: map<string, User>
    /** Authorization codes by code. */
    var codes: map<string, AuthorizationCode>
    /** Token pairs by access token. */
    var tokens: map<string, Token>

    /** Row ids are keys; clientId is unique. */
    ghost predicate ClientsValid()
      reads this
    {
      && (forall k :: k in clients ==> clients[k].id == k)
      && (forall k, k' :: k in clients && k' in clients && clients[k].clientId == clients[k'].clientId ==> k == k')
    }

    /** Row ids are keys; username and email are unique. */
    ghost predicate UsersValid()
      reads this
    {
      && (forall k :: k in users ==> users[k].id == k)
      && (forall k, k' :: k in users && k' in users && users[k].username == users[k'].username ==> k == k')
      && (forall k, k' :: k in users && k' in users && users[k].email == users[k'].email ==> k == k')
    }

    /** Codes are keys and refer to stored clients and users. */
    ghost predicate CodesValid()
      reads this
    {
      forall c :: c in codes ==> codes[c].code == c && codes[c].client in clients && codes[c].user in users
    }

    /**
     * Access tokens are keys, refer to stored clients and users, and no token
     * string is both an access token and a refresh token; refresh tokens are unique.
     */
    ghost predicate TokensValid()
      reads this
    {
      && (forall a :: a in tokens ==>
            && tokens[a].accessToken == a
            && tokens[a].client in clients
            && (tokens[a].user.Some? ==> tokens[a].user.value in users)
            && tokens[a].refreshToken !in tokens)
      && (forall a, a' :: a in tokens && a' in tokens && tokens[a].refreshToken == tokens[a'].refreshToken ==> a == a')
    }

    ghost predicate Valid()
      reads this
    {
      ClientsValid() && UsersValid() && CodesValid() && TokensValid()
    }

    /** No stored client has this clientId. */
    ghost predicate ClientIdUnused(clientId: string)
      reads this
    {
      forall k :: k in clients ==> clients[k].clientId != clientId
    }

    /** Neither string is yet an access or a refresh token, and they differ. */
    ghost predicate FreshTokenPair(access: string, refresh: string)
      reads this
    {
      && access != refresh
      && access !in tokens && refresh !in tokens
      && forall a :: a in tokens ==> tokens[a].refreshToken != access && tokens[a].refreshToken != refresh
    }

    constructor ()
      ensures Valid()
      ensures clients == map[] && users == map[] && codes == map[] && tokens == map[]
    {
      clients, users, codes, tokens := map[], map[], map[], map[];
    }

    // ---------------------------------------------------------------- clients

    /** `createClient`: stores a new active client under fresh credentials. */
    method CreateClient(data: NewClient, id: string, clientId: string, clientSecret: string) returns (c: Client)
      requires Valid()
      requires id !in clients && ClientIdUnused(clientId)
      modifies this
      ensures Valid()
      ensures c == Client(id, data.name, clientId, clientSecret, data.isPublic, data.redirectUris,
                          data.allowedGrantTypes, data.scopes, true)
      ensures clients == old(clients)[id := c]
      ensures users == old(users) && codes == old(codes) && tokens == old(tokens)
    {
      c := Client(id, data.name, clientId, clientSecret, data.isPublic, data.redirectUris,
                  data.allowedGrantTypes, data.scopes, true);
      clients := clients[id := c];
    }

    /** `findClientById`: only an active client is found. */
    function FindClientById(id: string): (r: Result<Client, Error>)
      reads this
      ensures r.Ok? <==> id in clients && clients[id].active
      ensures r.Ok? ==> r.value == clients[id]
      ensures r.Err? ==> r.error == ClientNotFound
    {
      if id in clients && clients[id].active then Ok(clients[id]) else Err(ClientNotFound)
    }

    /** The active client with this clientId, if there is one. */
    function ActiveClient(clientId: string): (r: Option<Client>)
      requires Valid()
      reads this
      ensures r.Some? <==> exists k :: k in clients && clients[k].clientId == clientId && clients[k].active
      ensures r.Some? ==> r.value.id in clients && clients[r.value.id] == r.value
      ensures r.Some? ==> r.value.clientId == clientId && r.value.active
    {
      if exists k :: k in clients && clients[k].clientId == clientId && clients[k].active then
        var k :| k in clients && clients[k].clientId == clientId && clients[k].active;
        Some(clients[k])
      else
        None
    }

    /** `findClientByClientId`: the active client with this clientId, or "Client not found". */
    function FindClientByClientId(clientId: string): (r: Result<Client, Error>)
      requires Valid()
      reads this
      ensures r.Ok? <==> exists k :: k in clients && clients[k].clientId == clientId && clients[k].active
      ensures r.Ok? ==> r.value.id in clients && clients[r.value.id] == r.value && r.value.clientId == clientId && r.value.active
      ensures r.Err? ==> r.error == ClientNotFound
    {
      match ActiveClient(clientId)
      case Some(c) => Ok(c)
      case None => Err(ClientNotFound)
    }

    /** `updateClient`: merges the patch into an active client; nothing else changes. */
    method UpdateClient(id: string, patch: ClientPatch) returns (r: Result<Client, Error>)
      requires Valid()
      modifies this
      ensures Valid()
      ensures r == (if id in old(clients) && old(clients)[id].active
                    then Ok(Merge(old(clients)[id], patch)) else Err(ClientNotFound))
      ensures clients == if r.Ok? then old(clients)[id := r.value] else old(clients)
      ensures users == old(users) && codes == old(codes) && tokens == old(tokens)
    {
      var found := FindClientById(id);
      if found.Err? {
        return Err(found.error);
      }
      var c := Merge(found.value, patch);
      clients := clients[id := c];
      r := Ok(c);
    }

    /** `deleteClient`: deactivates an active client; the record stays. */
    method DeleteClient(id: string) returns (r: Result<bool, Error>)
      requires Valid()
      modifies this
      ensures Valid()
      ensures r == (if id in old(clients) && old(clients)[id].active then Ok(true) else Err(ClientNotFound))
      ensures clients == if r.Ok? then old(clients)[id := old(clients)[id].(active := false)] else old(clients)
      ensures users == old(users) && codes == old(codes) && tokens == old(tokens)
      ensures FindClientById(id).Err?
      ensures r.Ok? ==> forall s, g :: ValidateClient(old(clients)[id].clientId, s, g) == Err(InvalidClient)
    {
      var found := FindClientById(id);
      if found.Err? {
        return Err(found.error);
      }
      clients := clients[id := found.value.(active := false)];
      r := Ok(true);
      assert clients[id].clientId == old(clients)[id].clientId;
    }

    /**
     * `validateClient`, with its checks in order: an active client with that
     * clientId ("Invalid client"), its secret unless it is public ("Invalid
     * client credentials"), and the grant type among its comma-split
     * allowedGrantTypes.
     */
    function ValidateClient(clientId: string, clientSecret: string, grantType: string): (r: Result<Client, Error>)
      requires Valid()
      reads this
      ensures r == Err(InvalidClient) <==>
                !exists k :: k in clients && clients[k].clientId == clientId && clients[k].active
      ensures r == Err(InvalidClientCredentials) <==>
                exists k :: k in clients && clients[k].clientId == clientId && clients[k].active
                          && !clients[k].isPublic && clients[k].clientSecret != clientSecret
      ensures r.Ok? <==>
                exists k :: k in clients && clients[k].clientId == clientId && clients[k].active
                          && (clients[k].isPublic || clients[k].clientSecret == clientSecret)
                          && grantType in AllowedGrantTypes(clients[k])
      ensures r.Err? ==> r.error in {InvalidClient, InvalidClientCredentials, GrantTypeNotAllowed(grantType)}
      ensures r.Ok? ==> r.value.id in clients && clients[r.value.id] == r.value && r.value.clientId == clientId && r.value.active
      ensures r.Ok? ==> (r.value.isPublic || r.value.clientSecret == clientSecret)
      ensures r.Ok? ==> grantType in AllowedGrantTypes(r.value)
      ensures r.Err? ==> r.error.Status() == Unauthorized
    {
      match ActiveClient(clientId)
      case None => Err(InvalidClient)
      case Some(c) =>
        if !c.isPublic && c.clientSecret != clientSecret then Err(InvalidClientCredentials)
        else if grantType !in AllowedGrantTypes(c) then Err(GrantTypeNotAllowed(grantType))
        else Ok(c)
    }

    // ------------------------------------------------------------------ users

    /**
     * `createUser`: fails if any stored user, active or not, has the username
     * or the email, then if the password is missing; otherwise stores an active
     * user with the password's digest.
     */
    method CreateUser(data: NewUser, id: string) returns (r: Result<User, Error>)
      requires Valid()
      requires id !in users
      modifies this
      ensures Valid()
      ensures (exists k :: k in old(users) && (old(users)[k].username == data.username || old(users)[k].email == data.email))
              ==> r == Err(UserExists)
      ensures (forall k :: k in old(users) ==> old(users)[k].username != data.username && old(users)[k].email != data.email)
              ==> r == (if Present(data.password)
                        then Ok(User(id, data.username, Hash(data.password.value), data.firstName, data.lastName, data.email, true))
                        else Err(PasswordRequired))
      ensures users == if r.Ok? then old(users)[id := r.value] else old(users)
      ensures clients == old(clients) && codes == old(codes) && tokens == old(tokens)
    {
      if exists k :: k in users && (users[k].username == data.username || users[k].email == data.email) {
        return Err(UserExists);
      }
      if !Present(data.password) {
        return Err(PasswordRequired);
      }
      var u := User(id, data.username, Hash(data.password.value), data.firstName, data.lastName, data.email, true);
      users := users[id := u];
      r := Ok(u);
    }

    /** `findUserById`: only an active user is found. */
    function FindUserById(id: string): (r: Result<User, Error>)
      reads this
      ensures r.Ok? <==> id in users && users[id].active
      ensures r.Ok? ==> r.value == users[id]
      ensures r.Err? ==> r.error == UserNotFound
    {
      if id in users && users[id].active then Ok(users[id]) else Err(UserNotFound)
    }

    /** `findUserByUsername`: the active user with this username, or null. */
    function FindUserByUsername(username: string): (r: Option<User>)
      requires Valid()
      reads this
      ensures r.Some? <==> exists k :: k in users && users[k].username == username && users[k].active
      ensures r.Some? ==> r.value.id in users && users[r.value.id] == r.value
      ensures r.Some? ==> r.value.username == username && r.value.active
    {
      if exists k :: k in users && users[k].username == username && users[k].active then
        var k :| k in users && users[k].username == username && users[k].active;
        Some(users[k])
      else
        None
    }

    /** `validateUser`: the active user with this username whose digest verifies the password. */
    function ValidateUser(username: string, password: string): (r: Option<User>)
      requires Valid()
      reads this
      ensures r.Some? <==> exists k :: k in users && users[k].username == username && users[k].active
                                       && Verify(password, users[k].password)
      ensures r.Some? ==> r.value.id in users && users[r.value.id] == r.value && r.value.username == username && r.value.active
    {
      match FindUserByUsername(username)
      case None => None
      case Some(u) => if Verify(password, u.password) then Some(u) else None
    }

    /** `deleteUser`: deactivates an active user; the record stays. */
    method DeleteUser(id: string) returns (r: Result<bool, Error>)
      requires Valid()
      modifies this
      ensures Valid()
      ensures r == (if id in old(users) && old(users)[id].active then Ok(true) else Err(UserNotFound))
      ensures users == if r.Ok? then old(users)[id := old(users)[id].(active := false)] else old(users)
      ensures clients == old(clients) && codes == old(codes) && tokens == old(tokens)
      ensures FindUserById(id).Err?
      ensures r.Ok? ==> forall p :: ValidateUser(old(users)[id].username, p).None?
    {
      var found := FindUserById(id);
      if found.Err? {
        return Err(found.error);
      }
      users := users[id := found.value.(active := false)];
      r := Ok(true);
    }

    // ------------------------------------------------------ authorization codes

    /** `generateAuthorizationCode`: stores one code that expires ten minutes from now. */
    method GenerateAuthorizationCode(client: Client, user: User, scopes: seq<string>, redirectUri: string,
                                     code: string, now: int) returns (c: string)
      requires Valid()
      requires client.id in clients && user.id in users
      requires code !in codes
      modifies this
      ensures Valid()
      ensures c == code
      ensures codes == old(codes)[code := AuthorizationCode(code, now + CodeLifetime, redirectUri, scopes, client.id, user.id)]
      ensures clients == old(clients) && users == old(users) && tokens == old(tokens)
    {
      codes := codes[code := AuthorizationCode(code, now + CodeLifetime, redirectUri, scopes, client.id, user.id)];
      c := code;
    }

    /**
     * The checks of `validateAuthorizationCode`, in order: the code is known,
     * it was issued to this clientId, the redirect URI is the one it was issued
     * with, and it has not expired (`now > expiresAt` is expired).
     */
    function CheckAuthorizationCode(code: string, clientId: string, redirectUri: string, now: int)
      : (r: Result<AuthorizationCode, Error>)
      requires Valid()
      reads this
      ensures r == Err(InvalidAuthorizationCode) <==> code !in codes
      ensures r == Err(CodeNotIssuedToClient) <==>
                code in codes && clients[codes[code].client].clientId != clientId
      ensures r == Err(RedirectUriMismatch) <==>
                code in codes && clients[codes[code].client].clientId == clientId
                && codes[code].redirectUri != redirectUri
      ensures r == Err(AuthorizationCodeExpired) <==>
                code in codes && clients[codes[code].client].clientId == clientId
                && codes[code].redirectUri == redirectUri && now > codes[code].expiresAt
      ensures r.Ok? ==> code in codes && r.value == codes[code]
      ensures r.Err? ==> r.error.Status() == BadRequest
    {
      if code !in codes then Err(InvalidAuthorizationCode)
      else
        var ac := codes[code];
        if clients[ac.client].clientId != clientId then Err(CodeNotIssuedToClient)
        else if ac.redirectUri != redirectUri then Err(RedirectUriMismatch)
        else if now > ac.expiresAt then Err(AuthorizationCodeExpired)
        else Ok(ac)
    }

    /**
     * `validateAuthorizationCode`: a failed check leaves the store as it was;
     * success removes the code, so it cannot be redeemed again.
     */
    method ValidateAuthorizationCode(code: string, clientId: string, redirectUri: string, now: int)
      returns (r: Result<AuthorizationCode, Error>)
      requires Valid()
      modifies this
      ensures Valid()
      ensures r == old(CheckAuthorizationCode(code, clientId, redirectUri, now))
      ensures codes == if r.Ok? then old(codes) - {code} else old(codes)
      ensures clients == old(clients) && users == old(users) && tokens == old(tokens)
      ensures r.Ok? ==> forall id, uri, t :: CheckAuthorizationCode(code, id, uri, t) == Err(InvalidAuthorizationCode)
    {
      r := CheckAuthorizationCode(code, clientId, redirectUri, now);
      if r.Ok? {
        codes := codes - {code};
      }
    }

    // ----------------------------------------------------------------- tokens

    /**
     * `generateAccessToken`: stores one pair of fresh token strings; the access
     * half lives an hour, the refresh half thirty days; the user is attached
     * only when one is given.
     */
    method GenerateAccessToken(client: Client, user: Option<User>, scopes: seq<string>,
                               access: string, refresh: string, now: int) returns (t: Token)
      requires Valid()
      requires client.id in clients && (user.Some? ==> user.value.id in users)
      requires FreshTokenPair(access, refresh)
      modifies this
      ensures Valid()
      ensures t.accessToken == access && t.refreshToken == refresh
      ensures t.accessTokenExpiresAt == now + AccessTokenLifetime
      ensures t.refreshTokenExpiresAt == now + RefreshTokenLifetime
      ensures t.scopes == scopes && t.client == client.id && t.createdAt == now
      ensures t.user == (if user.Some? then Some(user.value.id) else None)
      ensures t == IssuedPair(client, if user.Some? then Some(user.value.id) else None, scopes, access, refresh, now)
      ensures tokens == old(tokens)[access := t]
      ensures clients == old(clients) && users == old(users) && codes == old(codes)
    {
      t := Token(access, refresh, now + AccessTokenLifetime, now + RefreshTokenLifetime, scopes, client.id,
                 if user.Some? then Some(user.value.id) else None, now);
      tokens := tokens[access := t];
    }

    /** `generateRefreshToken`: issues a pair and hands back its refresh half. */
    method GenerateRefreshToken(client: Client, user: Option<User>, scopes: seq<string>,
                                access: string, refresh: string, now: int) returns (r: string)
      requires Valid()
      requires client.id in clients && (user.Some? ==> user.value.id in users)
      requires FreshTokenPair(access, refresh)
      modifies this
      ensures Valid()
      ensures r == refresh
      ensures tokens == old(tokens)[access := IssuedPair(client, if user.Some? then Some(user.value.id) else None,
                                                          scopes, access, refresh, now)]
      ensures clients == old(clients) && users == old(users) && codes == old(codes)
    {
      var t := GenerateAccessToken(client, user, scopes, access, refresh, now);
      r := t.refreshToken;
    }

    /** `validateToken`: the pair whose access token this is, unless it expired (`now > accessTokenExpiresAt`). */
    function ValidateToken(token: string, now: int): (r: Option<Token>)
      requires Valid()
      reads this
      ensures r.Some? <==> exists a :: a in tokens && tokens[a].accessToken == token
                                       && now <= tokens[a].accessTokenExpiresAt
      ensures r.Some? ==> token in tokens && r.value == tokens[token]
    {
      if token !in tokens then None
      else if now > tokens[token].accessTokenExpiresAt then None
      else Some(tokens[token])
    }

    /** `validateRefreshToken`: the pair whose refresh token this is, unless it expired. */
    function ValidateRefreshToken(refreshToken: string, now: int): (r: Option<Token>)
      requires Valid()
      reads this
      ensures r.Some? <==> exists a :: a in tokens && tokens[a].refreshToken == refreshToken
                                       && now <= tokens[a].refreshTokenExpiresAt
      ensures r.Some? ==> r.value.accessToken in tokens && tokens[r.value.accessToken] == r.value
      ensures r.Some? ==> r.value.refreshToken == refreshToken
    {
      if exists a :: a in tokens && tokens[a].refreshToken == refreshToken then
        var a :| a in tokens && tokens[a].refreshToken == refreshToken;
        if now > tokens[a].refreshTokenExpiresAt then None else Some(tokens[a])
      else
        None
    }

    /** A string that no pair holds as its refresh half resolves at no time. */
    lemma RefreshTokenUnused(refreshToken: string)
      requires Valid()
      requires forall a :: a in tokens ==> tokens[a].refreshToken != refreshToken
      ensures forall t :: ValidateRefreshToken(refreshToken, t).None?
    {
    }

    /** The pair one of whose halves is this string. */
    function FindToken(token: string): (r: Option<Token>)
      requires Valid()
      reads this
      ensures r.Some? <==> exists a :: a in tokens && (a == token || tokens[a].refreshToken == token)
      ensures r.Some? ==> r.value.accessToken in tokens && tokens[r.value.accessToken] == r.value
      ensures r.Some? ==> r.value.accessToken == token || r.value.refreshToken == token
    {
      if exists a :: a in tokens && (a == token || tokens[a].refreshToken == token) then
        var a :| a in tokens && (a == token || tokens[a].refreshToken == token);
        Some(tokens[a])
      else
        None
    }

    /**
     * `revokeToken`: a string that is either half of a stored pair removes the
     * whole pair and answers true; any other string answers false and changes
     * nothing. Afterwards the string matches no pair, so a second revocation
     * answers false.
     */
    method RevokeToken(token: string) returns (b: bool)
      requires Valid()
      modifies this
      ensures Valid()
      ensures b <==> old(FindToken(token)).Some?
      ensures tokens == if b then old(tokens) - {old(FindToken(token)).value.accessToken} else old(tokens)
      ensures clients == old(clients) && users == old(users) && codes == old(codes)
      ensures FindToken(token).None?
      ensures forall t :: ValidateToken(token, t).None? && ValidateRefreshToken(token, t).None?
      ensures b ==> forall t :: ValidateToken(old(FindToken(token)).value.accessToken, t).None?
                            && ValidateRefreshToken(old(FindToken(token)).value.refreshToken, t).None?
    {
      var found := FindToken(token);
      if found.None? {
        return false;
      }
      tokens := tokens - {found.value.accessToken};
      b := true;
    }
  }
}
