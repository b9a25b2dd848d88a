/**
 * The end-to-end scenario the oauth2 app's flow tests walk through, on a
 * fresh server: register a client, register a user, obtain a pair with the
 * password grant, read the userinfo, refresh the pair, revoke the new access
 * token, and find that the revoked token no longer opens the userinfo.
 *
 * The generated strings (row ids, client credentials, token strings) are
 * fixed here, as a random generator might have produced them. Each step is
 * its own method, whose contract pins the stores down exactly.
 */
module Flow {
  import opened Entities
  import opened Text
  import opened Service
  import opened Controller

  const GrantTypes: seq<string> := ["authorization_code", "refresh_token", "password", "revoke_token", "introspection"]
  const Now: int := 1000

  /** The client the scenario registers, as stored. */
  const TestClient: Client := Client("client-row", "Test Client", "client-id", "client-secret", false,
                                     ["https://localhost:8080/callback"], Join(GrantTypes, ','), Some(["read", "write"]), true)

  /** The user the scenario registers, as stored. */
  const TestUser: User := User("user-row", "testuser", Hash("Password123!"), Some("Test"), Some("User"), "test@example.com", true)

  /** The pair the password grant issues. */
  const FirstPair: Token := IssuedPair(TestClient, Some("user-row"), ["read", "write"], "access-1", "refresh-1", Now)

  /** The pair the refresh grant issues in its place. */
  const SecondPair: Token := IssuedPair(TestClient, Some("user-row"), ["read", "write"], "access-2", "refresh-2", Now + 1000)

  /** The stored grant types split back into the list that was registered. */
  lemma TestClientGrantTypes()
    ensures AllowedGrantTypes(TestClient) == GrantTypes
  {
    assert FreeOf(GrantTypes, ',');
    SplitJoin(GrantTypes, ',');
  }

  /** "read write" asks for both scopes, and the client allows both. */
  lemma ReadWrite()
    ensures RequestedScopes(Some("read write")) == ["read", "write"]
    ensures ValidateScopes(TestClient, ["read", "write"]) == ["read", "write"]
    ensures Join(["read", "write"], ' ') == "read write"
  {
    assert "read write" == "read" + [' '] + "write";
    SplitPair("read", "write", ' ');
    ValidateScopesKeepsAllowed(TestClient, ["read", "write"]);
  }

  /** The registered client authenticates for each grant type it allows. */
  lemma ClientAuthenticates(service: Oauth2Service, grantType: string)
    requires service.Valid() && service.clients == map["client-row" := TestClient]
    requires grantType in GrantTypes
    ensures service.ValidateClient("client-id", "client-secret", grantType) == Ok(TestClient)
  {
    TestClientGrantTypes();
    assert "client-row" in service.clients;
  }

  /** Client registration on a fresh server. */
  method RegisterClient() returns (controller: Oauth2Controller, created: ClientResponse)
    ensures fresh(controller) && fresh(controller.service)
    ensures controller.service.Valid()
    ensures controller.service.clients == map["client-row" := TestClient]
    ensures controller.service.users == map[] && controller.service.codes == map[] && controller.service.tokens == map[]
    ensures created.allowedGrantTypes == GrantTypes && created.scopes == Some(["read", "write"])
  {
    var service := new Oauth2Service();
    controller := new Oauth2Controller(service);
    assert FreeOf(GrantTypes, ',');
    created := controller.CreateClient(
      CreateClientDto("Test Client", ["https://localhost:8080/callback"], Some(GrantTypes), Some(["read", "write"]), None),
      "client-row", "client-id", "client-secret");
  }

  /** Registration: a fresh server gets the client and the user. */
  method Register() returns (controller: Oauth2Controller, created: ClientResponse)
    ensures fresh(controller) && fresh(controller.service)
    ensures controller.service.Valid()
    ensures controller.service.clients == map["client-row" := TestClient]
    ensures controller.service.users == map["user-row" := TestUser]
    ensures controller.service.codes == map[] && controller.service.tokens == map[]
    ensures created.allowedGrantTypes == GrantTypes && created.scopes == Some(["read", "write"])
  {
    controller, created := RegisterClient();
    var user := controller.service.CreateUser(
      NewUser("testuser", Some("Password123!"), "test@example.com", Some("Test"), Some("User")), "user-row");
    assert user == Ok(TestUser);
  }

  /** The password grant issues the first pair. */
  method SignIn(controller: Oauth2Controller) returns (issued: Result<TokenResponse, Error>)
    requires controller.service.Valid()
    requires controller.service.clients == map["client-row" := TestClient]
    requires controller.service.users == map["user-row" := TestUser]
    requires controller.service.tokens == map[]
    modifies controller.service
    ensures controller.service.Valid()
    ensures controller.service.clients == map["client-row" := TestClient]
    ensures controller.service.users == map["user-row" := TestUser]
    ensures controller.service.tokens == map["access-1" := FirstPair]
    ensures issued == Ok(TokenResponse("access-1", "bearer", 3600, "refresh-1", "read write"))
  {
    var service := controller.service;
    TestClientGrantTypes();
    ClientAuthenticates(service, "password");
    VerifyHash("Password123!", "Password123!");
    assert "user-row" in service.users && service.users["user-row"].username == "testuser";
    assert service.ValidateUser("testuser", "Password123!") == Some(TestUser);
    ReadWrite();
    issued := controller.Token(
      TokenRequest("password", "client-id", "client-secret", None, None, None,
                   Some("testuser"), Some("Password123!"), Some("read write")),
      Now, "access-1", "refresh-1");
  }

  /** The refresh grant retires the first pair for the second. */
  method Refresh(controller: Oauth2Controller) returns (refreshed: Result<TokenResponse, Error>)
    requires controller.service.Valid()
    requires controller.service.clients == map["client-row" := TestClient]
    requires controller.service.users == map["user-row" := TestUser]
    requires controller.service.tokens == map["access-1" := FirstPair]
    modifies controller.service
    ensures controller.service.Valid()
    ensures controller.service.clients == map["client-row" := TestClient]
    ensures controller.service.users == map["user-row" := TestUser]
    ensures controller.service.tokens == map["access-2" := SecondPair]
    ensures refreshed == Ok(TokenResponse("access-2", "bearer", 3600, "refresh-2", "read write"))
  {
    ClientAuthenticates(controller.service, "refresh_token");
    FoundForRefresh(controller.service);
    NoScopeRequested();
    refreshed := controller.Token(
      TokenRequest("refresh_token", "client-id", "client-secret", None, None, Some("refresh-1"), None, None, None),
      Now + 1000, "access-2", "refresh-2");
    assert map["access-1" := FirstPair] - {"access-1"} == map[];
    ReadWrite();
  }

  /** The first refresh token, still live, names the first pair. */
  lemma FoundForRefresh(service: Oauth2Service)
    requires service.Valid() && service.tokens == map["access-1" := FirstPair]
    ensures service.ValidateRefreshToken("refresh-1", Now + 1000) == Some(FirstPair)
  {
    assert "access-1" in service.tokens && service.tokens["access-1"].refreshToken == "refresh-1";
  }

  /** A request without a scope grants none, whatever the client allows. */
  lemma NoScopeRequested()
    ensures ValidateScopes(TestClient, RequestedScopes(None)) == []
  {
  }

  /** Revocation of the second access token removes the second pair. */
  method Revoke(controller: Oauth2Controller) returns (revoked: Result<bool, Error>)
    requires controller.service.Valid()
    requires controller.service.clients == map["client-row" := TestClient]
    requires controller.service.tokens == map["access-2" := SecondPair]
    modifies controller.service
    ensures controller.service.Valid()
    ensures controller.service.clients == map["client-row" := TestClient]
    ensures controller.service.tokens == map[]
    ensures revoked == Ok(true)
  {
    ClientAuthenticates(controller.service, "revoke_token");
    FoundForRevocation(controller.service);
    revoked := controller.RevokeToken(RevokeRequest(Some("access-2"), Some("client-id"), Some("client-secret")));
    assert map["access-2" := SecondPair] - {"access-2"} == map[];
  }

  /** With no pair left, a revocation finds nothing and answers false. */
  method RevokeAgain(controller: Oauth2Controller) returns (again: Result<bool, Error>)
    requires controller.service.Valid()
    requires controller.service.clients == map["client-row" := TestClient]
    requires controller.service.tokens == map[]
    modifies controller.service
    ensures controller.service.Valid()
    ensures controller.service.tokens == map[]
    ensures again == Ok(false)
  {
    ClientAuthenticates(controller.service, "revoke_token");
    again := controller.RevokeToken(RevokeRequest(Some("access-2"), Some("client-id"), Some("client-secret")));
  }

  /** The second access token names the second pair. */
  lemma FoundForRevocation(service: Oauth2Service)
    requires service.Valid() && service.tokens == map["access-2" := SecondPair]
    ensures service.FindToken("access-2") == Some(SecondPair)
  {
    assert "access-2" in service.tokens;
  }

  /** Introspection of the first access token reports the client, scopes, times and owner. */
  lemma OwnerIntrospection(controller: Oauth2Controller, access: string)
    requires controller.service.Valid()
    requires controller.service.clients == map["client-row" := TestClient]
    requires controller.service.users == map["user-row" := TestUser]
    requires access in controller.service.tokens && controller.service.tokens[access] == FirstPair
    ensures controller.IntrospectToken(access, None, "client-id", "client-secret", Now)
            == Ok(Active("client-id", Some("testuser"), "read write", "Bearer",
                         (Now + AccessTokenLifetime) / 1000, Now / 1000, Some("user-row")))
  {
    ClientAuthenticates(controller.service, "introspection");
    ReadWrite();
  }

  /** A live access token of the registered user opens the userinfo, which names the user. */
  lemma OwnerUserInfo(controller: Oauth2Controller, access: string, now: int)
    requires controller.service.Valid()
    requires controller.service.users == map["user-row" := TestUser]
    requires access in controller.service.tokens && ' ' !in access
    requires now <= controller.service.tokens[access].accessTokenExpiresAt
    requires controller.service.tokens[access].user == Some("user-row")
    ensures controller.UserInfo(Some("Bearer " + access), now) == Ok(ClaimsOf(TestUser))
  {
    controller.UserInfoOfBearer(access, now);
  }

  /** The user's full name joins the two names with a space. */
  lemma TestUserName()
    ensures ClaimsOf(TestUser).name == Some("Test User")
  {
    assert "Test" + " " + "User" == "Test User";
  }

  /** With no pair stored, a bearer header is refused as an invalid token. */
  lemma RevokedUserInfo(controller: Oauth2Controller, access: string, now: int)
    requires controller.service.Valid() && controller.service.tokens == map[] && ' ' !in access
    ensures controller.UserInfo(Some("Bearer " + access), now) == Err(InvalidToken)
  {
    BearerToken(access);
  }

  /** Signed in with the password grant, the client introspects the token and the user reads the userinfo. */
  method Session(controller: Oauth2Controller)
    returns (issued: Result<TokenResponse, Error>,
             introspected: Result<IntrospectionResponse, Error>,
             info: Result<UserInfoClaims, Error>)
    requires controller.service.Valid()
    requires controller.service.clients == map["client-row" := TestClient]
    requires controller.service.users == map["user-row" := TestUser]
    requires controller.service.tokens == map[]
    modifies controller.service
    ensures controller.service.Valid()
    ensures controller.service.clients == map["client-row" := TestClient]
    ensures controller.service.users == map["user-row" := TestUser]
    ensures controller.service.tokens == map["access-1" := FirstPair]
    ensures issued == Ok(TokenResponse("access-1", "bearer", 3600, "refresh-1", "read write"))
    ensures introspected == Ok(Active("client-id", Some("testuser"), "read write", "Bearer",
                                      (Now + AccessTokenLifetime) / 1000, Now / 1000, Some("user-row")))
    ensures info == Ok(ClaimsOf(TestUser))
  {
    issued := SignIn(controller);
    introspected := Introspect(controller);
    info := ReadUserInfo(controller);
  }

  /** The client introspects the first access token. */
  method Introspect(controller: Oauth2Controller) returns (introspected: Result<IntrospectionResponse, Error>)
    requires controller.service.Valid()
    requires controller.service.clients == map["client-row" := TestClient]
    requires controller.service.users == map["user-row" := TestUser]
    requires controller.service.tokens == map["access-1" := FirstPair]
    ensures introspected == Ok(Active("client-id", Some("testuser"), "read write", "Bearer",
                                      (Now + AccessTokenLifetime) / 1000, Now / 1000, Some("user-row")))
  {
    OwnerIntrospection(controller, "access-1");
    introspected := controller.IntrospectToken("access-1", None, "client-id", "client-secret", Now);
  }

  /** The user reads the userinfo with the first access token. */
  method ReadUserInfo(controller: Oauth2Controller) returns (info: Result<UserInfoClaims, Error>)
    requires controller.service.Valid()
    requires controller.service.users == map["user-row" := TestUser]
    requires controller.service.tokens == map["access-1" := FirstPair]
    ensures info == Ok(ClaimsOf(TestUser))
  {
    OwnerUserInfo(controller, "access-1", Now);
    info := controller.UserInfo(Some("Bearer " + "access-1"), Now);
  }

  /**
   * The whole walk: the introspection reports the live token; the userinfo
   * opens with it and names the user; the refreshed access token differs from
   * the first; a revoked token no longer opens the userinfo, and a second
   * revocation finds nothing.
   */
  method PasswordRefreshRevoke()
    returns (created: ClientResponse,
             issued: Result<TokenResponse, Error>,
             introspected: Result<IntrospectionResponse, Error>,
             info: Result<UserInfoClaims, Error>,
             refreshed: Result<TokenResponse, Error>,
             revoked: Result<bool, Error>,
             revokedAgain: Result<bool, Error>,
             infoAfter: Result<UserInfoClaims, Error>)
    ensures created.allowedGrantTypes == GrantTypes && created.scopes == Some(["read", "write"])
    ensures issued.Ok? && issued.value.tokenType == "bearer" && issued.value.expiresIn == 3600
    ensures issued.value.scope == "read write"
    ensures introspected == Ok(Active("client-id", Some("testuser"), "read write", "Bearer",
                                      (Now + AccessTokenLifetime) / 1000, Now / 1000, Some("user-row")))
    ensures info.Ok? && info.value.username == "testuser" && info.value.name == Some("Test User")
    ensures refreshed.Ok? && refreshed.value.accessToken != issued.value.accessToken
    ensures revoked == Ok(true) && revokedAgain == Ok(false)
    ensures infoAfter == Err(InvalidToken)
  {
    var controller;
    controller, created := Register();
    issued, introspected, info := Session(controller);
    TestUserName();
    refreshed := Refresh(controller);
    revoked := Revoke(controller);
    revokedAgain := RevokeAgain(controller);
    RevokedUserInfo(controller, "access-2", Now + 2000);
    infoAfter := controller.UserInfo(Some("Bearer " + "access-2"), Now + 2000);
  }
}
