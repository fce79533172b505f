/** The records the entity store keeps, all keyed by username, and the
    responses the endpoints give back. */
module Entities {

  /** A value that may be absent: a Java reference that may be null, or the
      result of a store lookup that found nothing. */
  datatype Option<+T> = None | Some(value: T) {
    /** The value if present, else the given default. */
    function GetOr(default: T): T {
      if Some? then value else default
    }
  }

  /** The entity store's `get`: absent keys read as null. */
  function Lookup<K, V>(m: map<K, V>, k: K): Option<V> {
    if k in m then Some(m[k]) else None
  }

  /** A "User" entity: the credential digest, the contact email and the
      formatted creation time. */
  datatype User = User(password: string, email: string, creationTimestamp: string)

  /** A "Profile" entity, the child of the User with the same name. Every
      field is a free string: the endpoints do not check that `profile`,
      `role` or `state` holds one of the constants of `UserData`. */
  datatype Profile = Profile(
    profile: string,
    role: string,
    state: string,
    landline: string,
    mobilePhone: string,
    address: string,
    complementAddress: string,
    locality: string)

  /** A "Token" entity. The session token a client presents has the same
      fields, so it is a `Token` too. */
  datatype Token = Token(username: string, id: string, role: string, creationData: int, expirationData: int)

  /** The whole store: one map per entity kind. */
  datatype Store = Store(users: map<string, User>, profiles: map<string, Profile>, tokens: map<string, Token>)

  const EmptyStore := Store(map[], map[], map[])

  /** What every endpoint keeps true of the store:
      - every account has exactly one profile, under the same name;
      - a token exists only for an existing account, is stored under the
        name it carries, and its role snapshot equals the profile's role. */
  ghost predicate Consistent(s: Store) {
    && s.users.Keys == s.profiles.Keys
    && s.tokens.Keys <= s.users.Keys
    && (forall k :: k in s.tokens ==> s.tokens[k].username == k)
    && (forall k :: k in s.tokens ==> k in s.profiles && s.tokens[k].role == s.profiles[k].role)
  }

  /** The HTTP status classes of the failures: 400, 403, 409 and 500. */
  datatype Status = BadRequest | Forbidden | Conflict | InternalServerError

  /** Which check refused the request, one per message of the endpoints;
      `SomethingBroke` is every exception caught as a 500. */
  datatype ErrorKind =
    | NullData | PasswordsDoNotMatch | PasswordTooShort | UsernameExists
    | NotLogged | NoSuchUser | NoPermission
    | AlreadyLoggedIn | IncorrectPassword | AccountDisabled | AlreadyDisabled
    | NullPasswords | OldPasswordIncorrect | ConfirmationMismatch
    | SomethingBroke

  /** A response: a plain success, a success carrying the issued token or
      the requested records, or a failure with its status and kind. */
  datatype Response =
    | Ok
    | TokenIssued(token: Token)
    | AttributesRead(user: User, profile: Option<Profile>)
    | Fail(status: Status, kind: ErrorKind)
  {
    /** A failure with the given status class. */
    predicate FailedWith(st: Status) {
      Fail? && status == st
    }
  }

  const Broke := Fail(InternalServerError, SomethingBroke)

  /** The effect of one request: its response and the store after it. */
  datatype Outcome = Outcome(response: Response, store: Store)

  /** A refusal: the transaction is rolled back, so the store is the one the
      request found. */
  function Refuse(s: Store, st: Status, kind: ErrorKind): Outcome {
    Outcome(Fail(st, kind), s)
  }
}
