/**
 * The authentication service: password sign-in against the user store, and
 * sign-up as a plain insert. Signing is modelled as a function of the claims
 * alone, at one fixed instant, supplied from outside.
 */
module Auth {
  import opened Wrappers
  import opened Users

  /** The sign-in request body: an email or a username, and a password. */
  datatype SigninDto = SigninDto(email: Option<string>, username: Option<string>, password: string)

  /** The claims a session token carries. */
  datatype Payload = Payload(sub: string, username: string, firstName: string, lastName: string)

  /** The sign-in response body `{ access_token }`. */
  datatype SignInResponse = SignInResponse(accessToken: string)

  /** The message of an `UnauthorizedException` raised without one: Nest's default. */
  const DefaultUnauthorizedMessage: string := "Unauthorized"

  /** JavaScript truthiness of an optional string: present and not empty. */
  predicate Truthy(s: Option<string>) {
    s.Some? && s.value != ""
  }

  /** The lookups sign-in makes: by email when one is given, else by username when one is given. */
  function QueriesOf(dto: SigninDto): seq<Query> {
    if Truthy(dto.email) then [ByEmail(dto.email.value)]
    else if Truthy(dto.username) then [ByUsername(dto.username.value)]
    else []
  }

  /** The claims put into a session token: identity only. */
  function PayloadOf(u: User): Payload {
    Payload(u.id, u.username, u.firstName, u.lastName)
  }

  /** What `signIn` returns for a request against the store's two indexes. */
  function SignInOutcome(byEmail: map<string, User>, byUsername: map<string, User>,
                         dto: SigninDto, sign: Payload -> string): Result<SignInResponse, HttpError>
  {
    if !Truthy(dto.email) && !Truthy(dto.username) then Err(Unauthorized(DefaultUnauthorizedMessage))
    else
      var user := if Truthy(dto.email) then Lookup(byEmail, dto.email.value)
                  else Lookup(byUsername, dto.username.value);
      if user.None? || user.value.password != dto.password then Err(Unauthorized(DefaultUnauthorizedMessage))
      else Ok(SignInResponse(sign(PayloadOf(user.value))))
  }

  /**
   * `u` is the account the request names: the row under its email when the
   * email is truthy, otherwise the row under its username when that is truthy.
   */
  ghost predicate Designates(byEmail: map<string, User>, byUsername: map<string, User>,
                             dto: SigninDto, u: User)
  {
    if Truthy(dto.email) then dto.email.value in byEmail && byEmail[dto.email.value] == u
    else Truthy(dto.username) && dto.username.value in byUsername && byUsername[dto.username.value] == u
  }

  class AuthService {
    const users: UsersService
    /** `JwtService.signAsync`, as a function of the claims. */
    const sign: Payload -> string

    constructor (users: UsersService, sign: Payload -> string)
      ensures this.users == users && this.sign == sign
    {
      this.users := users;
      this.sign := sign;
    }

    /** `signIn`: look the user up, compare the password, sign the identity claims. */
    method SignIn(dto: SigninDto) returns (r: Result<SignInResponse, HttpError>)
      modifies users`queries
      ensures r == SignInOutcome(users.byEmail, users.byUsername, dto, sign)
      ensures users.queries == old(users.queries) + QueriesOf(dto)
    {
      if !Truthy(dto.email) && !Truthy(dto.username) {
        return Err(Unauthorized(DefaultUnauthorizedMessage));
      }
      var user: Option<User> := None;
      if Truthy(dto.email) {
        user := users.FindByEmail(dto.email.value);
      } else if Truthy(dto.username) {
        user := users.FindByUsername(dto.username.value);
      }
      if user.None? || user.value.password != dto.password {
        return Err(Unauthorized(DefaultUnauthorizedMessage));
      }
      var payload := PayloadOf(user.value);
      return Ok(SignInResponse(sign(payload)));
    }

    /** `signUp`: hand the registration to the store and return what it returns. */
    method SignUp(dto: CreateUserDto, d: Defaults) returns (r: Result<User, StoreError>)
      requires users.Valid()
      modifies users`byEmail, users`byUsername
      ensures users.Valid()
      ensures r == CreateOutcome(old(users.byEmail), old(users.byUsername), dto, d)
      ensures r.Ok? ==> users.byEmail == old(users.byEmail)[dto.email := r.value] &&
                        users.byUsername == old(users.byUsername)[dto.username := r.value]
      ensures r.Err? ==> users.byEmail == old(users.byEmail) && users.byUsername == old(users.byUsername)
    {
      r := users.Create(dto, d);
    }
  }

  /** With neither an email nor a username, sign-in is refused before any lookup. */
  lemma NoIdentifierRejected(byEmail: map<string, User>, byUsername: map<string, User>,
                             dto: SigninDto, sign: Payload -> string)
    requires !Truthy(dto.email) && !Truthy(dto.username)
    ensures SignInOutcome(byEmail, byUsername, dto, sign) == Err(Unauthorized(DefaultUnauthorizedMessage))
    ensures QueriesOf(dto) == []
  {
  }

  /**
   * A truthy email decides alone: only the email index is consulted, and the
   * username and the username index could be anything.
   */
  lemma EmailTakesPrecedence(byEmail: map<string, User>, byUsername: map<string, User>,
                             dto: SigninDto, sign: Payload -> string,
                             otherUsername: Option<string>, otherByUsername: map<string, User>)
    requires Truthy(dto.email)
    ensures QueriesOf(dto) == [ByEmail(dto.email.value)]
    ensures SignInOutcome(byEmail, byUsername, dto, sign) ==
            SignInOutcome(byEmail, otherByUsername, dto.(username := otherUsername), sign)
  {
  }

  /**
   * The username is used only when the email is falsy: then only the username
   * index is consulted, and which falsy email was sent, and the email index, do not matter.
   */
  lemma UsernameFallback(byEmail: map<string, User>, byUsername: map<string, User>,
                         dto: SigninDto, sign: Payload -> string,
                         otherEmail: Option<string>, otherByEmail: map<string, User>)
    requires !Truthy(dto.email) && Truthy(dto.username) && !Truthy(otherEmail)
    ensures QueriesOf(dto) == [ByUsername(dto.username.value)]
    ensures SignInOutcome(byEmail, byUsername, dto, sign) ==
            SignInOutcome(otherByEmail, byUsername, dto.(email := otherEmail), sign)
  {
  }

  /** When no row is filed under the identifier the request names, sign-in is refused. */
  lemma UnknownUserRejected(byEmail: map<string, User>, byUsername: map<string, User>,
                            dto: SigninDto, sign: Payload -> string)
    requires if Truthy(dto.email) then dto.email.value !in byEmail
             else Truthy(dto.username) ==> dto.username.value !in byUsername
    ensures SignInOutcome(byEmail, byUsername, dto, sign) == Err(Unauthorized(DefaultUnauthorizedMessage))
  {
  }

  /** When the named user's stored password is not exactly the one supplied, sign-in is refused. */
  lemma WrongPasswordRejected(byEmail: map<string, User>, byUsername: map<string, User>,
                              dto: SigninDto, sign: Payload -> string, u: User)
    requires Designates(byEmail, byUsername, dto, u)
    requires u.password != dto.password
    ensures SignInOutcome(byEmail, byUsername, dto, sign) == Err(Unauthorized(DefaultUnauthorizedMessage))
  {
  }

  /**
   * Sign-in succeeds exactly when the request names a user whose password is
   * the one supplied, and the token is then the signature of that user's
   * identity claims `{sub: id, username, firstName, lastName}`.
   */
  lemma SignInSucceedsIff(byEmail: map<string, User>, byUsername: map<string, User>,
                          dto: SigninDto, sign: Payload -> string, token: string)
    ensures SignInOutcome(byEmail, byUsername, dto, sign) == Ok(SignInResponse(token)) <==>
            exists u :: Designates(byEmail, byUsername, dto, u) && u.password == dto.password &&
                        token == sign(Payload(u.id, u.username, u.firstName, u.lastName))
  {
    if SignInOutcome(byEmail, byUsername, dto, sign) == Ok(SignInResponse(token)) {
      var u := if Truthy(dto.email) then byEmail[dto.email.value] else byUsername[dto.username.value];
      assert Designates(byEmail, byUsername, dto, u);
    }
  }

  /**
   * The token depends only on the user's identity claims: users that agree on
   * id, username, first and last name get the same token, whatever their
   * password, email, verification state or timestamps.
   */
  lemma TokenDependsOnIdentityOnly(byEmail1: map<string, User>, byUsername1: map<string, User>, dto1: SigninDto,
                                   byEmail2: map<string, User>, byUsername2: map<string, User>, dto2: SigninDto,
                                   sign: Payload -> string, u1: User, u2: User)
    requires Designates(byEmail1, byUsername1, dto1, u1) && u1.password == dto1.password
    requires Designates(byEmail2, byUsername2, dto2, u2) && u2.password == dto2.password
    requires u1.id == u2.id && u1.username == u2.username
    requires u1.firstName == u2.firstName && u1.lastName == u2.lastName
    ensures SignInOutcome(byEmail1, byUsername1, dto1, sign).Ok?
    ensures SignInOutcome(byEmail1, byUsername1, dto1, sign) == SignInOutcome(byEmail2, byUsername2, dto2, sign)
  {
  }

  /** On a consistent store, the signed-in user really has the email or username that was sent. */
  lemma SignedInUserMatchesIdentifier(byEmail: map<string, User>, byUsername: map<string, User>,
                                      dto: SigninDto, u: User)
    requires Indexed(byEmail, byUsername)
    requires Designates(byEmail, byUsername, dto, u)
    ensures Truthy(dto.email) ==> u.email == dto.email.value && u.username in byUsername
    ensures !Truthy(dto.email) ==> u.username == dto.username.value && u.email in byEmail
  {
  }

  /**
   * A user that has just signed up can sign in with the registered email and
   * password, whatever username accompanies the email.
   */
  lemma SignUpThenSignInByEmail(byEmail: map<string, User>, byUsername: map<string, User>,
                                reg: CreateUserDto, d: Defaults, sign: Payload -> string,
                                username: Option<string>)
    requires CreateOutcome(byEmail, byUsername, reg, d).Ok?
    requires reg.email != ""
    ensures var u := CreateOutcome(byEmail, byUsername, reg, d).value;
            SignInOutcome(byEmail[reg.email := u], byUsername[reg.username := u],
                          SigninDto(Some(reg.email), username, reg.password), sign) ==
            Ok(SignInResponse(sign(Payload(d.id, reg.username, reg.firstName, reg.lastName))))
  {
  }

  /** A user that has just signed up can sign in with the registered username and password. */
  lemma SignUpThenSignInByUsername(byEmail: map<string, User>, byUsername: map<string, User>,
                                   reg: CreateUserDto, d: Defaults, sign: Payload -> string)
    requires CreateOutcome(byEmail, byUsername, reg, d).Ok?
    requires reg.username != ""
    ensures var u := CreateOutcome(byEmail, byUsername, reg, d).value;
            SignInOutcome(byEmail[reg.email := u], byUsername[reg.username := u],
                          SigninDto(None, Some(reg.username), reg.password), sign) ==
            Ok(SignInResponse(sign(Payload(d.id, reg.username, reg.firstName, reg.lastName))))
  {
  }
}
