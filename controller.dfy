/**
 * The protocol logic of the OAuth 2.0 controller (`Oauth2Controller`): client
 * registration with its comma-joined grant types, the token endpoint's grant
 * dispatch (sections 4.1, 4.3, 4.4 and 6 of RFC 6749), the authorize redirect
 * (sections 4.1 and 4.2 of RFC 6749), introspection (shaped like section 2.2
 * of RFC 7662), revocation (in the style of section 2 of RFC 7009) and userinfo.
 *
 * Outcomes are values: an `Error` stands for the exception the endpoint
 * throws, and a redirect is the location string it sends.
 */
module Controller {
  import opened Entities
  import opened Text
  import opened Service

  /** The grant types a client gets when it names none. */
  const DefaultGrantTypes: string := "authorization_code,refresh_token"

  datatype CreateClientDto = CreateClientDto(
    name: string,
    redirectUris: seq<string>,
    allowedGrantTypes: Option<seq<string>>,
    scopes: Option<seq<string>>,
    isPublic: Option<bool>)

  /** The body of `updateClient`; `scopes` may be an explicit null, `Some(None)`. */
  datatype UpdateClientDto = UpdateClientDto(
    name: Option<string>,
    redirectUris: Option<seq<string>>,
    allowedGrantTypes: Option<seq<string>>,
    scopes: Option<Option<seq<string>>>,
    active: Option<bool>)

  /** A client as the client endpoints return it, grant types as a list. */
  datatype ClientResponse = ClientResponse(
    id: string,
    name: string,
    clientId: string,
    clientSecret: string,
    redirectUris: seq<string>,
    allowedGrantTypes: seq<string>,
    scopes: Option<seq<string>>,
    isPublic: bool,
    active: bool)

  /** The body of a token request; absent fields are `None`. */
  datatype TokenRequest = TokenRequest(
    grantType: string,
    clientId: string,
    clientSecret: string,
    code: Option<string>,
    redirectUri: Option<string>,
    refreshToken: Option<string>,
    username: Option<string>,
    password: Option<string>,
    scope: Option<string>)

  datatype TokenResponse = TokenResponse(
    accessToken: string,
    tokenType: string,
    expiresIn: int,
    refreshToken: string,
    scope: string)

  /** The query of an authorize request. */
  datatype AuthorizeQuery = AuthorizeQuery(
    clientId: string,
    responseType: string,
    redirectUri: string,
    scope: Option<string>,
    state: Option<string>)

  /** The body of a revocation request. */
  datatype RevokeRequest = RevokeRequest(
    token: Option<string>,
    clientId: Option<string>,
    clientSecret: Option<string>)

  /** An introspection answer: `{active: false}` and nothing else, or the token's details. */
  datatype IntrospectionResponse =
    | Inactive
    | Active(
        clientId: string,
        username: Option<string>,
        scope: string,
        tokenType: string,
        exp: int,
        iat: int,
        sub: Option<string>)

  datatype UserInfoClaims = UserInfoClaims(
    sub: string,
    username: string,
    email: string,
    name: Option<string>,
    givenName: Option<string>,
    familyName: Option<string>)

  /**
   * What `createClient` stores for the requested grant types: the list
   * joined with ',' (any list, even an empty one), or the default. Splitting
   * it on ',' reads back a non-empty comma-free list, or the default's two
   * grant types; the empty list is stored as "".
   */
  function StoredGrantTypes(given: Option<seq<string>>): (r: string)
    ensures given.Some? && |given.value| >= 1 && FreeOf(given.value, ',') ==> Split(r, ',') == given.value
    ensures given.None? ==> r == DefaultGrantTypes && Split(r, ',') == ["authorization_code", "refresh_token"]
    ensures given == Some([]) ==> r == "" && Split(r, ',') == [""]
  {
    if given.Some? then
      if |given.value| >= 1 && FreeOf(given.value, ',') then
        SplitJoin(given.value, ',');
        Join(given.value, ',')
      else
        SplitJoinEmpty(',');
        Join(given.value, ',')
    else
      DefaultGrantTypesSplit();
      DefaultGrantTypes
  }

  /** The default splits into its two grant types. */
  lemma DefaultGrantTypesSplit()
    ensures Split(DefaultGrantTypes, ',') == ["authorization_code", "refresh_token"]
  {
    var a, b := "authorization_code", "refresh_token";
    assert ',' !in a && ',' !in b;
    assert DefaultGrantTypes == a + [','] + b;
    SplitPair(a, b, ',');
  }

  /** The client as the client endpoints return it. */
  function ToResponse(c: Client): (r: ClientResponse)
    ensures r.allowedGrantTypes == AllowedGrantTypes(c)
    ensures r.id == c.id && r.clientId == c.clientId && r.clientSecret == c.clientSecret
  {
    ClientResponse(c.id, c.name, c.clientId, c.clientSecret, c.redirectUris, Split(c.allowedGrantTypes, ','),
                   c.scopes, c.isPublic, c.active)
  }

  /** `scope ? scope.split(' ') : []`. */
  function RequestedScopes(scope: Option<string>): (r: seq<string>)
    ensures r == [] <==> !Present(scope)
    ensures Present(scope) ==> Join(r, ' ') == scope.value
  {
    if Present(scope) then
      JoinSplit(scope.value, ' ');
      Split(scope.value, ' ')
    else []
  }

  /**
   * The token endpoint's answer for a stored pair: its two halves as a
   * bearer pair, its scopes joined with ' ', and the seconds the access half
   * has left, which is 3600 for a pair issued at `now`.
   */
  function Respond(t: Token, now: int): (r: TokenResponse)
    ensures r.accessToken == t.accessToken && r.refreshToken == t.refreshToken && r.tokenType == "bearer"
    ensures r.scope == Join(t.scopes, ' ')
    ensures t.accessTokenExpiresAt == now + AccessTokenLifetime ==> r.expiresIn == 3600
  {
    TokenResponse(t.accessToken, "bearer", (t.accessTokenExpiresAt - now) / 1000, t.refreshToken, Join(t.scopes, ' '))
  }

  /** The authorization-code grant's outcome, given the redemption check `ac` of its code. */
  predicate CodeGranted(codes0: map<string, AuthorizationCode>, tokens0: map<string, Token>,
                        codes1: map<string, AuthorizationCode>, tokens1: map<string, Token>,
                        r: Result<TokenResponse, Error>, req: TokenRequest, client: Client,
                        ac: Result<AuthorizationCode, Error>, now: int, access: string, refresh: string)
  {
    if !Present(req.code) || !Present(req.redirectUri) then r == Err(CodeAndRedirectUriRequired)
    else if ac.Err? then r == Err(ac.error)
    else
      && r.Ok?
      && codes1 == codes0 - {req.code.value}
      && tokens1 == tokens0[access := IssuedPair(client, Some(ac.value.user),
                                                 ValidateScopes(client, RequestedScopes(req.scope)), access, refresh, now)]
  }

  /** The refresh grant's outcome, given the live pair `e` its refresh token resolves to. */
  predicate RefreshGranted(tokens0: map<string, Token>, tokens1: map<string, Token>,
                           r: Result<TokenResponse, Error>, req: TokenRequest, client: Client,
                           e: Option<Token>, now: int, access: string, refresh: string)
  {
    var granted := ValidateScopes(client, RequestedScopes(req.scope));
    if !Present(req.refreshToken) then r == Err(RefreshTokenRequired)
    else if e.None? then r == Err(InvalidRefreshToken)
    else
      && r.Ok?
      && tokens1 == (tokens0 - {e.value.accessToken})[access :=
           IssuedPair(client, e.value.user, if |granted| > 0 then granted else e.value.scopes, access, refresh, now)]
  }

  /** The password grant's outcome, given the user `u` the credentials resolve to. */
  predicate PasswordGranted(tokens0: map<string, Token>, tokens1: map<string, Token>,
                            r: Result<TokenResponse, Error>, req: TokenRequest, client: Client,
                            u: Option<User>, now: int, access: string, refresh: string)
  {
    if !Present(req.username) || !Present(req.password) then r == Err(UsernameAndPasswordRequired)
    else if u.None? then r == Err(InvalidUsernameOrPassword)
    else
      && r.Ok?
      && tokens1 == tokens0[access := IssuedPair(client, Some(u.value.id),
                                                 ValidateScopes(client, RequestedScopes(req.scope)), access, refresh, now)]
  }

  /** `&state=<s>` when the state is present, nothing otherwise. */
  function StateSuffix(state: Option<string>): (r: string)
    ensures !Present(state) ==> r == ""
    ensures Present(state) ==> StartsWith(r, "&state=") && r[|"&state="|..] == state.value
  {
    if Present(state) then "&state=" + state.value else ""
  }

  /** The redirect of the code flow. */
  function CodeRedirect(redirectUri: string, code: string, state: Option<string>): (r: string)
    ensures StartsWith(r, redirectUri)
  {
    redirectUri + "?code=" + code + StateSuffix(state)
  }

  /** The redirect of the implicit flow, parameters in the fragment. */
  function TokenRedirect(redirectUri: string, accessToken: string, state: Option<string>): (r: string)
    ensures StartsWith(r, redirectUri)
  {
    redirectUri + "#" + "access_token=" + accessToken + "&" + "token_type=bearer" + "&" + "expires_in=3600"
    + StateSuffix(state)
  }

  /** An error redirect with the state echoed, empty when absent. */
  function ErrorRedirect(redirectUri: string, error: string, state: Option<string>): (r: string)
    ensures StartsWith(r, redirectUri)
  {
    redirectUri + "?" + "error=" + error + "&" + "state=" + OrEmpty(state)
  }

  /** The redirect of the catch-all in `authorize`, carrying the exception's message. */
  function ServerErrorRedirect(redirectUri: string, message: string, state: Option<string>): (r: string)
    ensures StartsWith(r, redirectUri)
  {
    redirectUri + "?" + "error=server_error" + "&" + "error_description=" + message + "&" + "state=" + OrEmpty(state)
  }

  /** The parameters of a redirect: what follows the redirect URI and its `?` or `#`, split on '&'. */
  function Params(location: string, redirectUri: string): seq<string>
    requires |redirectUri| < |location|
  {
    Split(location[|redirectUri| + 1..], '&')
  }

  /** Neither the value nor the state holds a '&'. */
  predicate Unambiguous(value: string, state: Option<string>) {
    '&' !in value && (state.Some? ==> '&' !in state.value)
  }

  /** The code redirect carries the code as a query and the state when there is one. */
  lemma CodeRedirectParams(redirectUri: string, code: string, state: Option<string>)
    requires Unambiguous(code, state)
    ensures var loc := CodeRedirect(redirectUri, code, state);
            |redirectUri| < |loc| && StartsWith(loc, redirectUri) && loc[|redirectUri|] == '?'
            && Params(loc, redirectUri) == ["code=" + code] + StateParams(state)
  {
    NoSeparator("code=", code, '&');
    StateSuffixSplit("code=" + code, state);
    CodeRedirectShape(redirectUri, code, state);
    var loc := CodeRedirect(redirectUri, code, state);
    assert loc[|redirectUri| + 1..] == ("code=" + code) + StateSuffix(state);
  }

  /** The code redirect, cut after its `?`. */
  lemma CodeRedirectShape(redirectUri: string, code: string, state: Option<string>)
    ensures CodeRedirect(redirectUri, code, state) == redirectUri + "?" + (("code=" + code) + StateSuffix(state))
  {
    assert "?code=" == "?" + "code=";
  }

  /** The parameters a state adds to a redirect. */
  function StateParams(state: Option<string>): seq<string> {
    if Present(state) then ["state=" + state.value] else []
  }

  /** A separator-free piece followed by the state suffix splits into the piece and the state. */
  lemma StateSuffixSplit(piece: string, state: Option<string>)
    requires '&' !in piece && (state.Some? ==> '&' !in state.value)
    ensures Split(piece + StateSuffix(state), '&') == [piece] + StateParams(state)
  {
    if Present(state) {
      NoSeparator("state=", state.value, '&');
      assert piece + StateSuffix(state) == piece + ['&'] + ("state=" + state.value);
      SplitPair(piece, "state=" + state.value, '&');
    } else {
      assert piece + StateSuffix(state) == piece;
      SplitFree(piece, '&');
    }
  }

  /** The implicit-flow redirect carries the token, its type and lifetime, and the state, in the fragment. */
  lemma TokenRedirectParams(redirectUri: string, accessToken: string, state: Option<string>)
    requires Unambiguous(accessToken, state)
    ensures var loc := TokenRedirect(redirectUri, accessToken, state);
            |redirectUri| < |loc| && StartsWith(loc, redirectUri) && loc[|redirectUri|] == '#'
            && Params(loc, redirectUri) ==
               ["access_token=" + accessToken, "token_type=bearer", "expires_in=3600"] + StateParams(state)
  {
    TokenRedirectShape(redirectUri, accessToken, state);
    AfterUri(redirectUri, '#', FragmentOf(accessToken, state));
    FragmentSplit(accessToken, state);
  }

  /** What follows the `#` of the implicit-flow redirect. */
  function FragmentOf(accessToken: string, state: Option<string>): string {
    ("access_token=" + accessToken) + ['&'] + ("token_type=bearer" + ['&'] + ("expires_in=3600" + StateSuffix(state)))
  }

  /** The fragment splits into its three parameters and the optional state. */
  lemma FragmentSplit(accessToken: string, state: Option<string>)
    requires Unambiguous(accessToken, state)
    ensures Split(FragmentOf(accessToken, state), '&')
            == ["access_token=" + accessToken, "token_type=bearer", "expires_in=3600"] + StateParams(state)
  {
    var first := "access_token=" + accessToken;
    NoSeparator("access_token=", accessToken, '&');
    var rest := "expires_in=3600" + StateSuffix(state);
    StateSuffixSplit("expires_in=3600", state);
    SplitCons("token_type=bearer", rest, '&');
    SplitCons(first, "token_type=bearer" + ['&'] + rest, '&');
  }

  /** A location made of the URI, one separator character and a body. */
  lemma AfterUri(uri: string, c: char, body: string)
    ensures var loc := uri + [c] + body;
            |uri| < |loc| && StartsWith(loc, uri) && loc[|uri|] == c && loc[|uri| + 1..] == body
  {
    var loc := uri + [c] + body;
    assert loc[..|uri|] == uri;
    assert loc[|uri| + 1..] == body;
  }

  /** The implicit-flow redirect, cut at its separators. */
  lemma TokenRedirectShape(redirectUri: string, accessToken: string, state: Option<string>)
    ensures TokenRedirect(redirectUri, accessToken, state) == redirectUri + ['#'] + FragmentOf(accessToken, state)
  {
    assert "&" == ['&'] && "#" == ['#'];
  }

  /** A separator-free literal before a separator-free value. */
  lemma NoSeparator(prefix: string, value: string, sep: char)
    requires sep !in prefix && sep !in value
    ensures sep !in prefix + value
  {
  }

  /** The error redirect carries the error and the state, empty when absent. */
  lemma ErrorRedirectParams(redirectUri: string, error: string, state: Option<string>)
    requires Unambiguous(error, state)
    ensures var loc := ErrorRedirect(redirectUri, error, state);
            |redirectUri| < |loc| && StartsWith(loc, redirectUri) && loc[|redirectUri|] == '?'
            && Params(loc, redirectUri) == ["error=" + error, "state=" + OrEmpty(state)]
  {
    var loc := ErrorRedirect(redirectUri, error, state);
    var first := "error=" + error;
    var second := "state=" + OrEmpty(state);
    NoSeparator("error=", error, '&');
    NoSeparator("state=", OrEmpty(state), '&');
    assert "&" == ['&'];
    assert loc == redirectUri + "?" + (first + ['&'] + second);
    assert loc[|redirectUri| + 1..] == first + ['&'] + second;
    SplitPair(first, second, '&');
  }

  /** The catch-all redirect carries `server_error`, the message and the state, empty when absent. */
  lemma ServerErrorRedirectParams(redirectUri: string, message: string, state: Option<string>)
    requires Unambiguous(message, state)
    ensures var loc := ServerErrorRedirect(redirectUri, message, state);
            |redirectUri| < |loc| && StartsWith(loc, redirectUri) && loc[|redirectUri|] == '?'
            && Params(loc, redirectUri) == ["error=server_error", "error_description=" + message, "state=" + OrEmpty(state)]
  {
    ServerErrorShape(redirectUri, message, state);
    AfterUri(redirectUri, '?', ServerErrorQuery(message, state));
    ServerErrorSplit(message, state);
  }

  /**
   * The two redirects `authorize` answers an unknown client or an unregistered URI with
   * carry exactly the error, the exception's message and the state.
   */
  lemma AuthorizeErrorParams(redirectUri: string, e: Error, state: Option<string>)
    requires e == ClientNotFound || e == InvalidRedirectUri
    requires state.Some? ==> '&' !in state.value
    ensures var loc := ServerErrorRedirect(redirectUri, e.Message(), state);
            StartsWith(loc, redirectUri) && loc[|redirectUri|] == '?'
            && Params(loc, redirectUri) == ["error=server_error", "error_description=" + e.Message(), "state=" + OrEmpty(state)]
  {
    AuthorizeMessagesPlain();
    ServerErrorRedirectParams(redirectUri, e.Message(), state);
  }

  /** What follows the `?` of the catch-all redirect. */
  function ServerErrorQuery(message: string, state: Option<string>): string {
    "error=server_error" + ['&'] + (("error_description=" + message) + ['&'] + ("state=" + OrEmpty(state)))
  }

  /** The catch-all redirect, cut after its `?`. */
  lemma ServerErrorShape(redirectUri: string, message: string, state: Option<string>)
    ensures ServerErrorRedirect(redirectUri, message, state) == redirectUri + ['?'] + ServerErrorQuery(message, state)
  {
    assert "&" == ['&'] && "?" == ['?'];
  }

  /** The catch-all query splits into its three parameters. */
  lemma ServerErrorSplit(message: string, state: Option<string>)
    requires Unambiguous(message, state)
    ensures Split(ServerErrorQuery(message, state), '&')
            == ["error=server_error", "error_description=" + message, "state=" + OrEmpty(state)]
  {
    var second := "error_description=" + message;
    var third := "state=" + OrEmpty(state);
    NoSeparator("error_description=", message, '&');
    NoSeparator("state=", OrEmpty(state), '&');
    SplitPair(second, third, '&');
    SplitCons("error=server_error", second + ['&'] + third, '&');
  }

  /** The token a userinfo header carries: the second space-separated piece of "Bearer <token>". */
  lemma BearerToken(token: string)
    requires ' ' !in token
    ensures StartsWith("Bearer " + token, "Bearer ")
    ensures Split("Bearer " + token, ' ') == ["Bearer", token]
  {
    assert "Bearer " + token == "Bearer" + [' '] + token;
    assert ' ' !in "Bearer";
    SplitPair("Bearer", token, ' ');
  }

  /** The endpoints, over the service's stores. */
  class Oauth2Controller {
    const service: Oauth2Service

    constructor (service: Oauth2Service)
      ensures this.service == service
    {
      this.service := service;
    }

    // ---------------------------------------------------------------- clients

    /** `createClient`: joins the grant types with ',' (default "authorization_code,refresh_token") and splits them back in the answer. */
    method CreateClient(dto: CreateClientDto, id: string, clientId: string, clientSecret: string)
      returns (r: ClientResponse)
      requires service.Valid()
      requires id !in service.clients && service.ClientIdUnused(clientId)
      modifies service
      ensures service.Valid()
      ensures service.clients == old(service.clients)[id := Client(id, dto.name, clientId, clientSecret,
                dto.isPublic == Some(true), dto.redirectUris, StoredGrantTypes(dto.allowedGrantTypes), dto.scopes, true)]
      ensures service.users == old(service.users) && service.codes == old(service.codes)
      ensures service.tokens == old(service.tokens)
      ensures r == ToResponse(service.clients[id]) && GetClient(id) == Ok(r)
      ensures dto.allowedGrantTypes.Some? && |dto.allowedGrantTypes.value| >= 1 && FreeOf(dto.allowedGrantTypes.value, ',')
              ==> r.allowedGrantTypes == dto.allowedGrantTypes.value
      ensures dto.allowedGrantTypes.None? ==> r.allowedGrantTypes == ["authorization_code", "refresh_token"]
    {
      var c := service.CreateClient(
        NewClient(dto.name, dto.redirectUris, StoredGrantTypes(dto.allowedGrantTypes), dto.scopes, dto.isPublic == Some(true)),
        id, clientId, clientSecret);
      r := ToResponse(c);
    }

    /** `getClient`: an active client with its grant types split on ','. */
    function GetClient(id: string): (r: Result<ClientResponse, Error>)
      requires service.Valid()
      reads service
      ensures r.Ok? <==> id in service.clients && service.clients[id].active
      ensures r.Ok? ==> r.value.id == id && r.value.allowedGrantTypes == AllowedGrantTypes(service.clients[id])
      ensures r.Err? ==> r.error == ClientNotFound
    {
      match service.FindClientById(id)
      case Ok(c) => Ok(ToResponse(c))
      case Err(e) => Err(e)
    }

    /** `updateClient`: joins a given grant-type list with ',' and merges the rest. */
    method UpdateClient(id: string, dto: UpdateClientDto) returns (r: Result<ClientResponse, Error>)
      requires service.Valid()
      modifies service
      ensures service.Valid()
      ensures var patch := ClientPatch(dto.name, dto.redirectUris,
                                       if dto.allowedGrantTypes.Some? then Some(Join(dto.allowedGrantTypes.value, ',')) else None,
                                       dto.scopes, dto.active);
              if id in old(service.clients) && old(service.clients)[id].active then
                && service.clients == old(service.clients)[id := Merge(old(service.clients)[id], patch)]
                && r == Ok(ToResponse(service.clients[id]))
              else
                service.clients == old(service.clients) && r == Err(ClientNotFound)
      ensures service.users == old(service.users) && service.codes == old(service.codes)
      ensures service.tokens == old(service.tokens)
    {
      var joined := if dto.allowedGrantTypes.Some? then Some(Join(dto.allowedGrantTypes.value, ',')) else None;
      var u := service.UpdateClient(id, ClientPatch(dto.name, dto.redirectUris, joined, dto.scopes, dto.active));
      if u.Err? {
        return Err(u.error);
      }
      r := Ok(ToResponse(u.value));
    }

    // ------------------------------------------------------------------ token

    /**
     * `token`: authenticates the client for the grant type first, then
     * dispatches on it. Every grant answers with a bearer pair whose scopes are
     * the requested ones (split on ' ') that the client's allow-list keeps,
     * except that a refresh with no surviving scope keeps the old pair's scopes.
     */
    method Token(req: TokenRequest, now: int, access: string, refresh: string) returns (r: Result<TokenResponse, Error>)
      requires service.Valid()
      requires service.FreshTokenPair(access, refresh)
      modifies service
      ensures service.Valid()
      ensures service.clients == old(service.clients) && service.users == old(service.users)
      // The client is authenticated before anything else.
      ensures var v := old(service.ValidateClient(req.clientId, req.clientSecret, req.grantType));
              v.Err? ==> r == Err(v.error) && unchanged(service)
      // Any success stores the fresh pair and answers with it.
      ensures r.Ok? ==> access in service.tokens && r.value == TokenResponse(access, "bearer", 3600, refresh,
                                                                             Join(service.tokens[access].scopes, ' '))
      ensures r.Err? ==> service.tokens == old(service.tokens) && service.codes == old(service.codes)
      ensures req.grantType != "authorization_code" ==> service.codes == old(service.codes)
      ensures var v := old(service.ValidateClient(req.clientId, req.clientSecret, req.grantType));
              v.Ok? && req.grantType == "authorization_code" ==>
                CodeGranted(old(service.codes), old(service.tokens), service.codes, service.tokens, r, req, v.value,
                            old(service.CheckAuthorizationCode(OrEmpty(req.code), req.clientId, OrEmpty(req.redirectUri), now)),
                            now, access, refresh)
      ensures var v := old(service.ValidateClient(req.clientId, req.clientSecret, req.grantType));
              v.Ok? && req.grantType == "refresh_token" ==>
                RefreshGranted(old(service.tokens), service.tokens, r, req, v.value,
                               old(service.ValidateRefreshToken(OrEmpty(req.refreshToken), now)), now, access, refresh)
      // Refreshing retires the old pair: its refresh token is spent and the new access token differs.
      ensures var v := old(service.ValidateClient(req.clientId, req.clientSecret, req.grantType));
              var e := old(service.ValidateRefreshToken(OrEmpty(req.refreshToken), now));
              v.Ok? && req.grantType == "refresh_token" && r.Ok? ==>
                && e.Some? && e.value.accessToken !in service.tokens && r.value.accessToken != e.value.accessToken
                && forall t :: service.ValidateRefreshToken(OrEmpty(req.refreshToken), t).None?
      ensures var v := old(service.ValidateClient(req.clientId, req.clientSecret, req.grantType));
              v.Ok? && req.grantType == "password" ==>
                PasswordGranted(old(service.tokens), service.tokens, r, req, v.value,
                                old(service.ValidateUser(OrEmpty(req.username), OrEmpty(req.password))), now, access, refresh)
      ensures var v := old(service.ValidateClient(req.clientId, req.clientSecret, req.grantType));
              v.Ok? && req.grantType == "client_credentials" ==>
                && r.Ok?
                && service.codes == old(service.codes)
                && service.tokens == old(service.tokens)[access :=
                     IssuedPair(v.value, None, ValidateScopes(v.value, RequestedScopes(req.scope)), access, refresh, now)]
      ensures var v := old(service.ValidateClient(req.clientId, req.clientSecret, req.grantType));
              v.Ok? && req.grantType !in {"authorization_code", "refresh_token", "password", "client_credentials"} ==>
                r == Err(UnsupportedGrantType(req.grantType))
    {
      var v := service.ValidateClient(req.clientId, req.clientSecret, req.grantType);
      if v.Err? {
        return Err(v.error);
      }
      var client := v.value;
      var validScopes := ValidateScopes(client, RequestedScopes(req.scope));
      var t: Result<Token, Error>;
      if req.grantType == "authorization_code" {
        t := AuthorizationCodeGrant(req, client, validScopes, now, access, refresh);
      } else if req.grantType == "refresh_token" {
        t := RefreshTokenGrant(req, client, validScopes, now, access, refresh);
      } else if req.grantType == "password" {
        t := PasswordGrant(req, client, validScopes, now, access, refresh);
      } else if req.grantType == "client_credentials" {
        var token := service.GenerateAccessToken(client, None, validScopes, access, refresh, now);
        t := Ok(token);
      } else {
        return Err(UnsupportedGrantType(req.grantType));
      }
      if t.Err? {
        return Err(t.error);
      }
      r := Ok(Respond(t.value, now));
    }

    /** The authorization-code grant: both parameters, then a redeemed code. */
    method AuthorizationCodeGrant(req: TokenRequest, client: Client, granted: seq<string>, now: int,
                                  access: string, refresh: string) returns (r: Result<Token, Error>)
      requires service.Valid() && service.FreshTokenPair(access, refresh) && client.id in service.clients
      requires granted == ValidateScopes(client, RequestedScopes(req.scope))
      modifies service
      ensures service.Valid()
      ensures service.clients == old(service.clients) && service.users == old(service.users)
      ensures r.Ok? ==> r.value == IssuedPair(client, r.value.user, granted, access, refresh, now)
                        && service.tokens == old(service.tokens)[access := r.value]
      ensures r.Err? ==> service.tokens == old(service.tokens) && service.codes == old(service.codes)
      ensures var ac := old(service.CheckAuthorizationCode(OrEmpty(req.code), req.clientId, OrEmpty(req.redirectUri), now));
              CodeGranted(old(service.codes), old(service.tokens), service.codes, service.tokens,
                          if r.Ok? then Ok(Respond(r.value, now)) else Err(r.error), req, client, ac, now, access, refresh)
    {
      if !Present(req.code) || !Present(req.redirectUri) {
        return Err(CodeAndRedirectUriRequired);
      }
      var ac := service.ValidateAuthorizationCode(req.code.value, req.clientId, req.redirectUri.value, now);
      if ac.Err? {
        return Err(ac.error);
      }
      var user := service.users[ac.value.user];
      var token := service.GenerateAccessToken(client, Some(user), granted, access, refresh, now);
      r := Ok(token);
    }

    /** The refresh grant: a live refresh token retires its pair; a new pair keeps its owner. */
    method RefreshTokenGrant(req: TokenRequest, client: Client, granted: seq<string>, now: int,
                             access: string, refresh: string) returns (r: Result<Token, Error>)
      requires service.Valid() && service.FreshTokenPair(access, refresh) && client.id in service.clients
      requires granted == ValidateScopes(client, RequestedScopes(req.scope))
      modifies service
      ensures service.Valid()
      ensures service.clients == old(service.clients) && service.users == old(service.users)
      ensures service.codes == old(service.codes)
      ensures r.Ok? ==> access in service.tokens && service.tokens[access] == r.value
                        && r.value.accessTokenExpiresAt == now + AccessTokenLifetime && r.value.refreshToken == refresh
      ensures r.Err? ==> service.tokens == old(service.tokens)
      ensures r.Ok? ==> forall t :: service.ValidateRefreshToken(OrEmpty(req.refreshToken), t).None?
      ensures RefreshGranted(old(service.tokens), service.tokens,
                             if r.Ok? then Ok(Respond(r.value, now)) else Err(r.error), req, client,
                             old(service.ValidateRefreshToken(OrEmpty(req.refreshToken), now)), now, access, refresh)
    {
      if !Present(req.refreshToken) {
        return Err(RefreshTokenRequired);
      }
      var existing := service.ValidateRefreshToken(req.refreshToken.value, now);
      if existing.None? {
        return Err(InvalidRefreshToken);
      }
      var prior := existing.value;
      var token := Rotate(prior, client, if |granted| > 0 then granted else prior.scopes, now, access, refresh);
      r := Ok(token);
    }

    /**
     * The two writes of the refresh grant: revoke the pair `prior`, then issue
     * a pair for its user. The old refresh token then resolves at no time.
     */
    method Rotate(prior: Token, client: Client, scopes: seq<string>, now: int, access: string, refresh: string)
      returns (t: Token)
      requires service.Valid() && service.FreshTokenPair(access, refresh) && client.id in service.clients
      requires prior.accessToken in service.tokens && service.tokens[prior.accessToken] == prior
      modifies service
      ensures service.Valid()
      ensures service.clients == old(service.clients) && service.users == old(service.users)
      ensures service.codes == old(service.codes)
      ensures t == IssuedPair(client, prior.user, scopes, access, refresh, now)
      ensures service.tokens == (old(service.tokens) - {prior.accessToken})[access := t]
      ensures forall n :: service.ValidateRefreshToken(prior.refreshToken, n).None?
    {
      assert refresh != prior.refreshToken;
      var _ := service.RevokeToken(prior.accessToken);
      ghost var remaining := service.tokens;
      assert forall a :: a in remaining ==> remaining[a].refreshToken != prior.refreshToken;
      var user := if prior.user.Some? then Some(service.users[prior.user.value]) else None;
      t := service.GenerateAccessToken(client, user, scopes, access, refresh, now);
      assert service.tokens == remaining[access := t];
      service.RefreshTokenUnused(prior.refreshToken);
    }

    /** The password grant: both parameters, then the user's credentials. */
    method PasswordGrant(req: TokenRequest, client: Client, granted: seq<string>, now: int,
                         access: string, refresh: string) returns (r: Result<Token, Error>)
      requires service.Valid() && service.FreshTokenPair(access, refresh) && client.id in service.clients
      requires granted == ValidateScopes(client, RequestedScopes(req.scope))
      modifies service
      ensures service.Valid()
      ensures service.clients == old(service.clients) && service.users == old(service.users)
      ensures service.codes == old(service.codes)
      ensures r.Ok? ==> access in service.tokens && service.tokens[access] == r.value
                        && r.value.accessTokenExpiresAt == now + AccessTokenLifetime && r.value.refreshToken == refresh
      ensures r.Err? ==> service.tokens == old(service.tokens)
      ensures PasswordGranted(old(service.tokens), service.tokens,
                              if r.Ok? then Ok(Respond(r.value, now)) else Err(r.error), req, client,
                              old(service.ValidateUser(OrEmpty(req.username), OrEmpty(req.password))), now, access, refresh)
    {
      if !Present(req.username) || !Present(req.password) {
        return Err(UsernameAndPasswordRequired);
      }
      var user := service.ValidateUser(req.username.value, req.password.value);
      if user.None? {
        return Err(InvalidUsernameOrPassword);
      }
      var token := service.GenerateAccessToken(client, user, granted, access, refresh, now);
      r := Ok(token);
    }

    // -------------------------------------------------------------- authorize

    /**
     * `authorize`: for a known client and a registered redirect URI, and a
     * signed-in `user`, issues a code (response type "code") or a pair
     * (response type "token") and redirects with it; every other case only
     * redirects, with an error, and stores nothing. The redirect always goes
     * to the requested URI, registered or not.
     */
    method Authorize(q: AuthorizeQuery, user: Option<User>, now: int, code: string, access: string, refresh: string)
      returns (location: string)
      requires service.Valid()
      requires user.Some? ==> user.value.id in service.users
      requires code !in service.codes && service.FreshTokenPair(access, refresh)
      modifies service
      ensures service.Valid()
      ensures StartsWith(location, q.redirectUri)
      ensures service.clients == old(service.clients) && service.users == old(service.users)
      ensures var found := old(service.FindClientByClientId(q.clientId));
              var granted := if found.Ok? then ValidateScopes(found.value, RequestedScopes(q.scope)) else [];
              if found.Err? then
                location == ServerErrorRedirect(q.redirectUri, "Client not found", q.state) && unchanged(service)
              else if !ValidateRedirectUri(found.value, q.redirectUri) then
                location == ServerErrorRedirect(q.redirectUri, "Invalid redirect URI", q.state) && unchanged(service)
              else if user.None? then
                location == ErrorRedirect(q.redirectUri, "login_required", q.state) && unchanged(service)
              else if q.responseType == "code" then
                && location == CodeRedirect(q.redirectUri, code, q.state)
                && service.codes == old(service.codes)[code :=
                     AuthorizationCode(code, now + CodeLifetime, q.redirectUri, granted, found.value.id, user.value.id)]
                && service.tokens == old(service.tokens)
              else if q.responseType == "token" then
                && location == TokenRedirect(q.redirectUri, access, q.state)
                && service.tokens == old(service.tokens)[access :=
                     IssuedPair(found.value, Some(user.value.id), granted, access, refresh, now)]
                && service.codes == old(service.codes)
              else
                location == ErrorRedirect(q.redirectUri, "unsupported_response_type", q.state) && unchanged(service)
    {
      var found := service.FindClientByClientId(q.clientId);
      if found.Err? {
        return ServerErrorRedirect(q.redirectUri, found.error.Message(), q.state);
      }
      var client := found.value;
      if !ValidateRedirectUri(client, q.redirectUri) {
        return ServerErrorRedirect(q.redirectUri, InvalidRedirectUri.Message(), q.state);
      }
      if user.None? {
        return ErrorRedirect(q.redirectUri, "login_required", q.state);
      }
      if q.responseType == "code" {
        var scopes := ValidateScopes(client, RequestedScopes(q.scope));
        var c := service.GenerateAuthorizationCode(client, user.value, scopes, q.redirectUri, code, now);
        location := CodeRedirect(q.redirectUri, c, q.state);
      } else if q.responseType == "token" {
        var scopes := ValidateScopes(client, RequestedScopes(q.scope));
        var t := service.GenerateAccessToken(client, user, scopes, access, refresh, now);
        location := TokenRedirect(q.redirectUri, t.accessToken, q.state);
      } else {
        location := ErrorRedirect(q.redirectUri, "unsupported_response_type", q.state);
      }
    }

    // ----------------------------------------------------- revoke, introspect

    /**
     * `revokeToken`: needs the token and both client credentials, and a client
     * allowing "revoke_token"; answers whether a pair was removed.
     */
    method RevokeToken(body: RevokeRequest) returns (r: Result<bool, Error>)
      requires service.Valid()
      modifies service
      ensures service.Valid()
      ensures service.clients == old(service.clients) && service.users == old(service.users)
      ensures service.codes == old(service.codes)
      ensures !Present(body.token) || !Present(body.clientId) || !Present(body.clientSecret)
              ==> r == Err(MissingRequiredParameters) && unchanged(service)
      ensures Present(body.token) && Present(body.clientId) && Present(body.clientSecret) ==>
              var v := old(service.ValidateClient(body.clientId.value, body.clientSecret.value, "revoke_token"));
              var found := old(service.FindToken(body.token.value));
              if v.Err? then r == Err(v.error) && unchanged(service)
              else
                && r == Ok(found.Some?)
                && service.tokens == (if found.Some? then old(service.tokens) - {found.value.accessToken} else old(service.tokens))
                && service.FindToken(body.token.value).None?
    {
      if !Present(body.token) || !Present(body.clientId) || !Present(body.clientSecret) {
        return Err(MissingRequiredParameters);
      }
      var v := service.ValidateClient(body.clientId.value, body.clientSecret.value, "revoke_token");
      if v.Err? {
        return Err(v.error);
      }
      var success := service.RevokeToken(body.token.value);
      r := Ok(success);
    }

    /**
     * `introspectToken`: for a client allowing "introspection", resolves the
     * token as a refresh token when hinted so and as an access token otherwise;
     * an unresolved token is `{active: false}`, a resolved one reports its
     * client, scopes, owner when it has one, and the access half's expiry.
     */
    function IntrospectToken(token: string, tokenTypeHint: Option<string>, clientId: string, clientSecret: string,
                             now: int): (r: Result<IntrospectionResponse, Error>)
      requires service.Valid()
      reads service
      ensures var v := service.ValidateClient(clientId, clientSecret, "introspection");
              (r.Err? <==> v.Err?) && (v.Err? ==> r.error == v.error)
      ensures var refreshHint := tokenTypeHint == Some("refresh_token");
              r == Ok(Inactive) <==>
                && service.ValidateClient(clientId, clientSecret, "introspection").Ok?
                && !exists a :: a in service.tokens &&
                     if refreshHint then service.tokens[a].refreshToken == token && now <= service.tokens[a].refreshTokenExpiresAt
                     else service.tokens[a].accessToken == token && now <= service.tokens[a].accessTokenExpiresAt
      ensures r.Ok? && r.value.Active? ==>
              exists a :: a in service.tokens &&
                var t := service.tokens[a];
                && (if tokenTypeHint == Some("refresh_token") then t.refreshToken == token && now <= t.refreshTokenExpiresAt
                    else t.accessToken == token && now <= t.accessTokenExpiresAt)
                && r.value.clientId == service.clients[t.client].clientId
                && r.value.scope == Join(t.scopes, ' ')
                && r.value.tokenType == "Bearer"
                && r.value.exp == t.accessTokenExpiresAt / 1000
                && r.value.iat == t.createdAt / 1000
                && r.value.sub == t.user
                && (r.value.username.Some? <==> t.user.Some?)
                && (t.user.Some? ==> r.value.username == Some(service.users[t.user.value].username))
    {
      match service.ValidateClient(clientId, clientSecret, "introspection")
      case Err(e) => Err(e)
      case Ok(_) =>
        var found := if tokenTypeHint == Some("refresh_token") then service.ValidateRefreshToken(token, now)
                     else service.ValidateToken(token, now);
        match found
        case None => Ok(Inactive)
        case Some(t) =>
          Ok(Active(service.clients[t.client].clientId,
                    if t.user.Some? then Some(service.users[t.user.value].username) else None,
                    Join(t.scopes, ' '),
                    "Bearer",
                    t.accessTokenExpiresAt / 1000,
                    t.createdAt / 1000,
                    if t.user.Some? then Some(t.user.value) else None))
    }

    // --------------------------------------------------------------- userinfo

    /**
     * `userInfo`: the header must be present and start with "Bearer "; the
     * second space-separated piece must be a live access token that has an
     * owner. `name` is given only when both names are.
     */
    function UserInfo(authorization: Option<string>, now: int): (r: Result<UserInfoClaims, Error>)
      requires service.Valid()
      reads service
      ensures r == Err(AccessTokenRequired) <==> !Present(authorization) || !StartsWith(authorization.value, "Bearer ")
      ensures r.Err? ==> r.error in {AccessTokenRequired, InvalidToken} && r.error.Status() == Unauthorized
      ensures r.Ok? ==> authorization.Some? &&
                        exists a :: a in service.tokens
                          && now <= service.tokens[a].accessTokenExpiresAt
                          && service.tokens[a].user == Some(r.value.sub)
                          && (authorization.value == "Bearer " + a || StartsWith(authorization.value, "Bearer " + a + " "))
      ensures r.Ok? ==> r.value.sub in service.users && ClaimsOf(service.users[r.value.sub]) == r.value
    {
      if !Present(authorization) || !StartsWith(authorization.value, "Bearer ") then Err(AccessTokenRequired)
      else
        var header := authorization.value;
        assert "Bearer " == "Bearer" + [' '];
        SplitAfterPrefix("Bearer", header, ' ');
        var token := Split(header, ' ')[1];
        match service.ValidateToken(token, now)
        case None => Err(InvalidToken)
        case Some(t) =>
          if t.user.None? then Err(InvalidToken)
          else
            BearerPieces(header, token);
            Ok(ClaimsOf(service.users[t.user.value]))
    }
    /** A bearer header carrying a live access token with an owner yields that owner's claims. */
    lemma UserInfoOfBearer(access: string, now: int)
      requires service.Valid()
      requires access in service.tokens && ' ' !in access
      requires now <= service.tokens[access].accessTokenExpiresAt && service.tokens[access].user.Some?
      ensures UserInfo(Some("Bearer " + access), now) == Ok(ClaimsOf(service.users[service.tokens[access].user.value]))
    {
      StartsWithConcat(access, "Bearer ");
      BearerToken(access);
    }
  }

  /** The claims `userInfo` reports for a user. */
  function ClaimsOf(u: User): (r: UserInfoClaims)
    ensures r.sub == u.id && r.username == u.username && r.email == u.email
    ensures r.givenName == u.firstName && r.familyName == u.lastName
    ensures r.name.Some? <==> Present(u.firstName) && Present(u.lastName)
    ensures r.name.Some? ==> r.name.value == u.firstName.value + " " + u.lastName.value
  {
    UserInfoClaims(u.id, u.username, u.email,
                   if Present(u.firstName) && Present(u.lastName) then Some(u.firstName.value + " " + u.lastName.value) else None,
                   u.firstName, u.lastName)
  }

  /** A header "Bearer ..." is "Bearer <its second piece>", alone or followed by a space. */
  lemma BearerPieces(header: string, token: string)
    requires StartsWith(header, "Bearer ") && |Split(header, ' ')| >= 2 && token == Split(header, ' ')[1]
    ensures header == "Bearer " + token || StartsWith(header, "Bearer " + token + " ")
  {
    var rest := header[7..];
    assert header == "Bearer" + [' '] + rest;
    SplitCons("Bearer", rest, ' ');
    assert token == Split(rest, ' ')[0];
    FirstPiece(rest, ' ');
  }

  /** A string is its first piece, alone or followed by the separator. */
  lemma {:induction false} FirstPiece(s: string, sep: char)
    ensures s == Split(s, sep)[0] || StartsWith(s, Split(s, sep)[0] + [sep])
    decreases |s|
  {
    if |s| > 0 && s[0] != sep {
      FirstPiece(s[1..], sep);
      var p := Split(s[1..], sep)[0];
      assert Split(s, sep)[0] == [s[0]] + p;
      assert s == [s[0]] + s[1..];
      if s[1..] != p {
        assert s[1..][..|p| + 1] == p + [sep];
        assert s[..|p| + 2] == [s[0]] + p + [sep];
      }
    }
  }
}
