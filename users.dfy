/**
 * The user record and the user store that sign-in and sign-up talk to.
 * The store is the database table seen through its two unique indexes: one
 * keyed by email, one keyed by username.
 */
module Users {
  import opened Wrappers

  /** A user row. Dates are instants in milliseconds. */
  datatype User = User(
    id: string,
    username: string,
    email: string,
    firstName: string,
    lastName: string,
    emailVerified: bool,
    createdAt: int,
    updatedAt: int,
    password: string,
    verificationToken: string,
    otpNumber: int)

  /** The registration fields a client supplies. */
  datatype CreateUserDto = CreateUserDto(
    username: string,
    email: string,
    password: string,
    firstName: string,
    lastName: string)

  /** The columns the database fills on insert: the generated id and the column defaults. */
  datatype Defaults = Defaults(
    id: string,
    emailVerified: bool,
    createdAt: int,
    updatedAt: int,
    verificationToken: string,
    otpNumber: int)

  /** One lookup made against the store. */
  datatype Query = ByEmail(email: string) | ByUsername(username: string)

  /** A unique constraint on email or username refused an insert. */
  datatype StoreError = Conflict

  /** `findUnique` on one index: the row stored under `key`, or `null`. */
  function Lookup(index: map<string, User>, key: string): Option<User> {
    if key in index then Some(index[key]) else None
  }

  /**
   * The two indexes describe one set of rows: every row is filed under its own
   * email and its own username, and can be reached through either index.
   */
  ghost predicate Indexed(byEmail: map<string, User>, byUsername: map<string, User>) {
    (forall e :: e in byEmail ==>
      byEmail[e].email == e &&
      byEmail[e].username in byUsername && byUsername[byEmail[e].username] == byEmail[e]) &&
    (forall n :: n in byUsername ==>
      byUsername[n].username == n &&
      byUsername[n].email in byEmail && byEmail[byUsername[n].email] == byUsername[n])
  }

  /** The row an insert of `dto` creates, given the columns the database fills. */
  function NewUser(dto: CreateUserDto, d: Defaults): User {
    User(d.id, dto.username, dto.email, dto.firstName, dto.lastName,
         d.emailVerified, d.createdAt, d.updatedAt, dto.password, d.verificationToken, d.otpNumber)
  }

  /** What `create` returns: the new row, or a conflict when its email or username is taken. */
  function CreateOutcome(byEmail: map<string, User>, byUsername: map<string, User>,
                         dto: CreateUserDto, d: Defaults): Result<User, StoreError>
  {
    if dto.email in byEmail || dto.username in byUsername then Err(Conflict)
    else Ok(NewUser(dto, d))
  }

  /** A successful insert stores the registration exactly as given, with the database's columns. */
  lemma CreateStoresRegistration(byEmail: map<string, User>, byUsername: map<string, User>,
                                 dto: CreateUserDto, d: Defaults)
    ensures CreateOutcome(byEmail, byUsername, dto, d).Ok? <==>
            dto.email !in byEmail && dto.username !in byUsername
    ensures CreateOutcome(byEmail, byUsername, dto, d).Ok? ==>
      var u := CreateOutcome(byEmail, byUsername, dto, d).value;
      u.id == d.id && u.username == dto.username && u.email == dto.email &&
      u.password == dto.password && u.firstName == dto.firstName && u.lastName == dto.lastName &&
      u.emailVerified == d.emailVerified && u.verificationToken == d.verificationToken &&
      u.otpNumber == d.otpNumber && u.createdAt == d.createdAt && u.updatedAt == d.updatedAt
  {
  }

  /** Filing the new row under its email and username keeps the two indexes consistent. */
  lemma CreateKeepsIndexed(byEmail: map<string, User>, byUsername: map<string, User>,
                           dto: CreateUserDto, d: Defaults)
    requires Indexed(byEmail, byUsername)
    requires CreateOutcome(byEmail, byUsername, dto, d).Ok?
    ensures var u := NewUser(dto, d);
            Indexed(byEmail[dto.email := u], byUsername[dto.username := u])
  {
  }

  /** The user table of the database, as the services see it. */
  class UsersService {
    var byEmail: map<string, User>
    var byUsername: map<string, User>
    /** Every lookup made so far, in order. */
    ghost var queries: seq<Query>

    ghost predicate Valid()
      reads this
    {
      Indexed(byEmail, byUsername)
    }

    constructor ()
      ensures Valid()
      ensures byEmail == map[] && byUsername == map[] && queries == []
    {
      byEmail, byUsername := map[], map[];
      queries := [];
    }

    /** `findByEmail`: the row with this email, or `null`. */
    method FindByEmail(email: string) returns (u: Option<User>)
      modifies this`queries
      ensures u == Lookup(byEmail, email)
      ensures queries == old(queries) + [ByEmail(email)]
    {
      u := Lookup(byEmail, email);
      queries := queries + [ByEmail(email)];
    }

    /** `findByUsername`: the row with this username, or `null`. */
    method FindByUsername(username: string) returns (u: Option<User>)
      modifies this`queries
      ensures u == Lookup(byUsername, username)
      ensures queries == old(queries) + [ByUsername(username)]
    {
      u := Lookup(byUsername, username);
      queries := queries + [ByUsername(username)];
    }

    /** `create`: insert a row for the registration, refused when its email or username is taken. */
    method Create(dto: CreateUserDto, d: Defaults) returns (r: Result<User, StoreError>)
      requires Valid()
      modifies this`byEmail, this`byUsername
      ensures Valid()
      ensures r == CreateOutcome(old(byEmail), old(byUsername), dto, d)
      ensures r.Ok? ==> byEmail == old(byEmail)[dto.email := r.value] &&
                        byUsername == old(byUsername)[dto.username := r.value]
      ensures r.Err? ==> byEmail == old(byEmail) && byUsername == old(byUsername)
    {
      r := CreateOutcome(byEmail, byUsername, dto, d);
      if r.Ok? {
        CreateKeepsIndexed(byEmail, byUsername, dto, d);
        byEmail := byEmail[dto.email := r.value];
        byUsername := byUsername[dto.username := r.value];
      }
    }
  }
}
