# Password sign-in and bearer-token guard of a NestJS authentication service

This project models the two pieces of decision logic in the service's authentication code:

- **`AuthService.signIn`** takes an email or a username and a password. It rejects a request
  that has neither identifier. It looks the user up by email when an email is given, and
  otherwise by username. It rejects a missing user or a password that does not match. On
  success it signs the claims `{sub, username, firstName, lastName}` and returns
  `{access_token}`. **`AuthService.signUp`** hands the registration to the user store and
  returns what the store returns.
- **`AuthGuard.canActivate`** takes field `[1]` of the `authorization` header split on single
  spaces as the token. With no token it returns `false`. A token the verifier rejects raises
  401 `Invalid token`. Any other token returns `true`.

Modules, one per component:

- `Wrappers` (`wrappers.dfy`): `Option` (JavaScript `undefined`/`null`), `Result`
  (a value or a raised error) and `HttpError` (`UnauthorizedException` with its message).
- `JsString` (`js_string.dfy`): JavaScript `split` and `join` with a one-character separator.
  The file proves that they are inverse to each other.
- `Users` (`users.dfy`): the user row and the user store. The store is a class holding two
  maps: email → user and username → user. These maps stand for the table's two unique
  indexes. A ghost log records every lookup. `Indexed` says the two maps describe one set
  of rows.
- `Auth` (`auth_service.dfy`): `AuthService` with its `SignIn` and `SignUp` methods. Each
  method is proved equal to a specification function, and the lemmas state the properties
  of those functions. `SignInOutcome` models src/auth/auth.service.ts:15-36, and
  `Users.CreateOutcome` models src/users/users.service.ts:12-16.
- `Guard` (`auth_guard.dfy`): `CanActivate` as a pure function modelling
  src/common/guards/auth.guard.ts:7-26. It returns `Deny` (`false`),
  `Throw(Unauthorized("Invalid token"))` or `Allow` (`true`). `ExtractToken` models the token
  extraction at src/common/guards/auth.guard.ts:11-12.

Outside collaborators become parameters:

- JWT signing (`JwtService.signAsync`) is a function-valued constant `sign: Payload -> string`
  of `AuthService`. In the model it is an arbitrary function of the claims alone: signing at
  one fixed instant (see "## Left out").
- JWT verification (`JwtService.verify` with `JWT_SECRET`) is the parameter
  `verify: string -> bool` of `CanActivate`; `true` means `verify` does not throw.
- The database columns that are filled on insert (generated id, defaults, timestamps) are the
  parameter `Defaults` of `Create`.
- JavaScript truthiness of the optional `email` and `username` is `Truthy`: present and not
  the empty string.

## Model

| member | source | states |
|---|---|---|
| `JsString.Split` | src/common/guards/auth.guard.ts:11 | `split(' ')` always gives at least one field, and no field contains the separator |
| `JsString.JoinSplit` | src/common/guards/auth.guard.ts:11 | joining the fields of a split with the separator gives the original string back, so splitting loses nothing |
| `JsString.SplitJoin` | src/common/guards/auth.guard.ts:11 | splitting the join of a non-empty list of separator-free fields gives exactly those fields back |
| `JsString.SplitWithoutSeparator` | src/common/guards/auth.guard.ts:11 | a string without the separator splits into the single field holding the whole string |
| `JsString.SplitAtSeparator` | src/common/guards/auth.guard.ts:11 | each single separator is a field boundary: the fields of `a + sep + b` are the fields of `a` followed by those of `b`, so empty fields appear |
| `Users.CreateStoresRegistration` | src/users/users.service.ts:12-16 | an insert succeeds exactly when neither the email nor the username is taken; the new row holds the registration's fields unchanged plus the database-filled columns |
| `Users.CreateKeepsIndexed` | src/users/users.service.ts:12-16 | filing a successfully inserted row under its email and its username keeps the two indexes describing one set of rows |
| `Users.UsersService.FindByEmail` | src/users/users.service.ts:30-36 | returns the row with that email or `null`; records one lookup by email and changes nothing else |
| `Users.UsersService.FindByUsername` | src/users/users.service.ts:38-44 | returns the row with that username or `null`; records one lookup by username and changes nothing else |
| `Users.UsersService.Create` | src/users/users.service.ts:12-16 | inserts the new row under its email and username, or leaves the store untouched on a conflict; the store stays consistent |
| `Auth.AuthService.constructor` | src/auth/auth.service.ts:10-13 | the service holds the given user store and signer |
| `Auth.AuthService.SignIn` | src/auth/auth.service.ts:15-36 | the result is the sign-in outcome for the store's indexes; the only lookups made are the one by email (email truthy), else the one by username (username truthy), else none |
| `Auth.AuthService.SignUp` | src/auth/auth.service.ts:38-40 | returns exactly what the store's `create` returns for the registration, and makes exactly the store change `create` makes |
| `Auth.NoIdentifierRejected` | src/auth/auth.service.ts:18-20 | with both email and username falsy (absent or empty), sign-in fails with Unauthorized and no lookup is made |
| `Auth.EmailTakesPrecedence` | src/auth/auth.service.ts:23-24 | with a truthy email only the email lookup is made; the outcome is the same for any username and any username index |
| `Auth.UsernameFallback` | src/auth/auth.service.ts:25-26 | with a falsy email and a truthy username only the username lookup is made; the outcome is the same for any falsy email and any email index |
| `Auth.UnknownUserRejected` | src/auth/auth.service.ts:29-31 | when nothing is stored under the identifier the request names, sign-in fails with Unauthorized |
| `Auth.WrongPasswordRejected` | src/auth/auth.service.ts:29-31 | when the named user's stored password differs, under exact case-sensitive equality, from the supplied one, sign-in fails with Unauthorized |
| `Auth.SignInSucceedsIff` | src/auth/auth.service.ts:15-35 | sign-in returns `{access_token: t}` exactly when the request names a user whose password equals the supplied one and `t` is the signature of `{sub: id, username, firstName, lastName}` of that user |
| `Auth.TokenDependsOnIdentityOnly` | src/auth/auth.service.ts:32-35 | two successful sign-ins whose users agree on id, username, first and last name give the same token, whatever their password, email, verification fields or timestamps |
| `Auth.SignedInUserMatchesIdentifier` | src/auth/auth.service.ts:23-27 | on a consistent store the user that signs in has the email that was sent, or, without an email, the username that was sent |
| `Auth.SignUpThenSignInByEmail` | src/auth/auth.service.ts:15-40 | after a successful sign-up, signing in with the registered non-empty email and password succeeds with the token of the new user's claims, whatever username is sent too |
| `Auth.SignUpThenSignInByUsername` | src/auth/auth.service.ts:15-40 | after a successful sign-up, signing in with the registered non-empty username and password and no email succeeds with the token of the new user's claims |
| `Guard.SecondFieldIsToken` | src/common/guards/auth.guard.ts:11 | for a header `scheme + ' ' + token + rest`, with no space in scheme or token and rest empty or starting with a space, field `[1]` exists and is the token |
| `Guard.ExtractBearer` | src/common/guards/auth.guard.ts:11-12 | a header of that shape yields its token, or no token when the token is empty |
| `Guard.ExtractTokenIff` | src/common/guards/auth.guard.ts:11-12 | a token `t` is extracted exactly when the header is present, `t` is non-empty, and the header is some scheme word, one space, `t`, then nothing or a space and more |
| `Guard.MissingHeaderDenies` | src/common/guards/auth.guard.ts:11-12 | a request without an `authorization` header gets `false` and no exception, for every verifier |
| `Guard.HeaderWithoutSpaceDenies` | src/common/guards/auth.guard.ts:11-12 | a header containing no space gets `false` |
| `Guard.EmptySecondFieldDenies` | src/common/guards/auth.guard.ts:11-12 | a header whose field `[1]` is empty (a trailing space, or two spaces after the scheme) gets `false` |
| `Guard.DenyIgnoresVerifier` | src/common/guards/auth.guard.ts:11-23 | when no token is extracted, every verifier gives the same `false`, so the verifier is not consulted |
| `Guard.RejectedTokenThrows` | src/common/guards/auth.guard.ts:19-23 | a token the verifier rejects raises Unauthorized('Invalid token') |
| `Guard.AllowIff` | src/common/guards/auth.guard.ts:19-25 | the guard returns `true` exactly when a token is extracted and the verifier accepts it, with no claim checked; otherwise it returns `false` or raises Unauthorized('Invalid token') |
| `Guard.SchemeNotChecked` | src/common/guards/auth.guard.ts:11-25 | headers with the same token after different scheme words give the same outcome: `false` for an empty token, otherwise `true` or Invalid token as the verifier decides |
| `Guard.TrailingFieldsIgnored` | src/common/guards/auth.guard.ts:11 | `"Bearer a b"` hands `"a"` to the verifier |
| `Guard.OtherSchemesAccepted` | src/common/guards/auth.guard.ts:11 | `"Basic xyz"` and `" xyz"` both hand `"xyz"` to the verifier |
| `Guard.EmptyTokenExamplesDeny` | src/common/guards/auth.guard.ts:11-12 | `"Bearer "` and `"Bearer  tok"` (two spaces) get `false` |

## Left out

- The mail service and mail module (`src/email/`): outbound mail and SMTP configuration. This is I/O with no decision logic.
- Auth.TokenDependsOnIdentityOnly: `sign` stands for signing at one instant. The real signer also stamps an issue-time claim (`iat`) from the clock, and an expiry claim when one is configured, so two sign-ins in different seconds get different tokens. The lemma's "same token" holds only for sign-ins at the same instant.
- JWT signing and verification and `process.env.JWT_SECRET`: foreign cryptography and environment access. They are a deterministic function `sign` and a predicate `verify`. Token expiry and signature checks are hidden inside `verify`.
- `Auth.AuthService.SignIn`: the model takes the sign-in body's declared TypeScript types as given: `email` and `username` are optional strings and `password` is a string (`src/auth/dto/signin.dto.ts:8-15`). Nothing checks these types at run time, and the modelled code installs no validation pipe (one would be installed at application bootstrap, which is not modelled). So a body without a password, or with a truthy non-string `username` such as `42`, is not modelled. The second reaches `findByUsername`, and the store rejects it with an error, not a 401. With a string password, a missing user compares `undefined !== password`, which is always true, so sign-in fails with Unauthorized for any password.
- Request validation decorators (`src/auth/dto/signin.dto.ts`, `src/users/dto/create-user.dto.ts`): the model uses only the DTOs' field lists and declared types. `@IsNotEmpty()` on the password would reject only `''`, `null` and `undefined`, and `username` has no validator.
- `RegisterDto` (`src/auth/dto/register.dto.ts`) is not part of this model. Its fields are taken to be those of `CreateUserDto`.
- `Users.UsersService.Create`: the conflict on a taken email or username stands for the database's unique constraints, which are declared in the Prisma schema, not in the modelled code. Uniqueness of the generated id is not modelled. The column defaults are a parameter because the Prisma schema is not part of the modelled code.
- `findAll`, `findOne`, `update` and `remove` of the users service: no core operation uses them.
- The auth controller: it is HTTP routing, and it calls `signIn` with two arguments where the service takes one object (`src/auth/auth.controller.ts:12`), an arity error that a type-checked build rejects. When the body carries a username string, destructuring it gives `email` and `username` as `undefined`, and the request fails with Unauthorized at `src/auth/auth.service.ts:18-19`. Without one, destructuring `undefined` at `src/auth/auth.service.ts:16` throws a TypeError (HTTP 500).
- Module wiring (`src/app.module.ts`) and the event payload types (`src/event-emitter/event-types.interface.ts`): declarations only.
- `async`/`await`, promises and observables: every call is sequential.
- Verification and one-time-password flows: no operation in the auth or users services issues, checks or resends verification tokens or one-time passwords. The mail listeners in `src/email/email.service.ts` would send such mails, but nothing in this code emits the events they listen for. Nor does the code check token expiry itself, return a session token from sign-up, require a verified email in the guard, or attach claims to the request. In the code, sign-in with a truthy email ignores the username rather than requiring exactly one of the two, and sign-up returns the created user rather than a token.
