/**
 * The records of the OAuth 2.0 authorization server and the outcomes of its
 * operations.
 *
 * The four records follow the TypeORM entities of the oauth2 app (Client,
 * User, AuthorizationCode, Token). Relations are kept as foreign keys: a code
 * or a token holds the `id` of its Client row and of its User row, and the
 * service resolves them when it reads the record, as the ORM does when it
 * loads a relation. Timestamps are integers in milliseconds, like
 * `Date.getTime()`.
 */
module Entities {

  datatype Option<+T> = None | Some(value: T)

  datatype Result<+T, +E> = Ok(value: T) | Err(error: E)

  /** The lifetime of an authorization code: ten minutes. */
  const CodeLifetime: int := 10 * 60 * 1000
  /** The lifetime of an access token: one hour. */
  const AccessTokenLifetime: int := 60 * 60 * 1000
  /** The lifetime of a refresh token: thirty days. */
  const RefreshTokenLifetime: int := 30 * 24 * 60 * 60 * 1000

  /** A registered OAuth client. `allowedGrantTypes` is stored comma-joined. */
  datatype Client = Client(
    id: string,
    name: string,
    clientId: string,
    clientSecret: string,
    isPublic: bool,
    redirectUris: seq<string>,
    allowedGrantTypes: string,
    scopes: Option<seq<string>>,
    active: bool)

  /** A resource owner; `password` holds the digest, never the password. */
  datatype User = User(
    id: string,
    username: string,
    password: string,
    firstName: Option<string>,
    lastName: Option<string>,
    email: string,
    active: bool)

  /** A single-use authorization code; `client` and `user` are row ids. */
  datatype AuthorizationCode = AuthorizationCode(
    code: string,
    expiresAt: int,
    redirectUri: string,
    scopes: seq<string>,
    client: string,
    user: string)

  /** An access/refresh token pair; `client` is a row id, `user` an optional one. */
  datatype Token = Token(
    accessToken: string,
    refreshToken: string,
    accessTokenExpiresAt: int,
    refreshTokenExpiresAt: int,
    scopes: seq<string>,
    client: string,
    user: Option<string>,
    createdAt: int)

  /** The HTTP exception class an error is raised as. */
  datatype Status = BadRequest | Unauthorized | NotFound

  /** Every exception the service and the controller raise. */
  datatype Error =
    | ClientNotFound
    | UserNotFound
    | UserExists
    | PasswordRequired
    | InvalidAuthorizationCode
    | CodeNotIssuedToClient
    | RedirectUriMismatch
    | AuthorizationCodeExpired
    | InvalidClient
    | InvalidClientCredentials
    | GrantTypeNotAllowed(grantType: string)
    | InvalidRedirectUri
    | CodeAndRedirectUriRequired
    | RefreshTokenRequired
    | InvalidRefreshToken
    | UsernameAndPasswordRequired
    | InvalidUsernameOrPassword
    | UnsupportedGrantType(grantType: string)
    | MissingRequiredParameters
    | AccessTokenRequired
    | InvalidToken
  {
    /**
     * The exception class the code throws: only the two lookups are "not found", and
     * only the client, credential and token failures are "unauthorized".
     */
    function Status(): (r: Status)
      ensures r == NotFound <==> this.ClientNotFound? || this.UserNotFound?
      ensures r == Unauthorized <==> this.InvalidClient? || this.InvalidClientCredentials? || this.GrantTypeNotAllowed?
                                     || this.InvalidUsernameOrPassword? || this.AccessTokenRequired? || this.InvalidToken?
    {
      match this
      case ClientNotFound | UserNotFound => NotFound
      case InvalidClient | InvalidClientCredentials | GrantTypeNotAllowed(_)
         | InvalidUsernameOrPassword | AccessTokenRequired | InvalidToken => Unauthorized
      case _ => BadRequest
    }

    /** The exception's message, as `authorize` copies it into its error redirect. */
    function Message(): string {
      match this
      case ClientNotFound => "Client not found"
      case UserNotFound => "User not found"
      case UserExists => "Username or email already exists"
      case PasswordRequired => "Password is required"
      case InvalidAuthorizationCode => "Invalid authorization code"
      case CodeNotIssuedToClient => "Authorization code was not issued to this client"
      case RedirectUriMismatch => "Redirect URI does not match the one used during authorization"
      case AuthorizationCodeExpired => "Authorization code has expired"
      case InvalidClient => "Invalid client"
      case InvalidClientCredentials => "Invalid client credentials"
      case GrantTypeNotAllowed(g) => "Grant type " + g + " not allowed for this client"
      case InvalidRedirectUri => "Invalid redirect URI"
      case CodeAndRedirectUriRequired => "Code and redirect_uri are required for authorization_code grant"
      case RefreshTokenRequired => "Refresh token is required"
      case InvalidRefreshToken => "Invalid refresh token"
      case UsernameAndPasswordRequired => "Username and password are required for password grant"
      case InvalidUsernameOrPassword => "Invalid username or password"
      case UnsupportedGrantType(g) => "Unsupported grant type: " + g
      case MissingRequiredParameters => "Missing required parameters"
      case AccessTokenRequired => "Access token is required"
      case InvalidToken => "Invalid token or token has expired"
    }
  }

  /**
   * The two messages `authorize` can copy into its error redirect hold no
   * '&', so each stays one parameter of the redirect.
   */
  lemma AuthorizeMessagesPlain()
    ensures '&' !in ClientNotFound.Message() && '&' !in InvalidRedirectUri.Message()
  {
  }

  /** JavaScript truthiness of an optional string: present and non-empty. */
  predicate Present(s: Option<string>) {
    s.Some? && s.value != ""
  }

  /** `s || ''` in a template string. */
  function OrEmpty(s: Option<string>): (r: string)
    ensures Present(s) ==> r == s.value
    ensures !Present(s) ==> r == ""
  {
    if s.Some? then s.value else ""
  }
}
