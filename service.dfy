/** Both resources over one store: every request either endpoint accepts,
    the store a sequence of requests leaves, and the properties that relate
    requests to one another. */
module Service {
  import opened Entities
  import opened UserData
  import opened Auth
  import opened UserResource
  import opened LoginResource

  /** One request to one endpoint, with what the source takes from the
      request body and, for the token gate, the presented token's validity
      test at the time the request is served. */
  datatype Request =
    | Register(username: Option<string>, password: Option<string>, confirmation: Option<string>,
               email: Option<string>, timestamp: string)
    | Delete(target: string, at: Token, isValid: Validity)
    | ModifyInfo(edits: ProfileEdits, at: Token, isValid: Validity)
    | ModifyRole(target: string, role: Option<string>, at: Token, isValid: Validity)
    | ModifyState(target: string, state: string, at: Token, isValid: Validity)
    | ModifyPassword(oldPassword: Option<string>, password: Option<string>, confirmation: Option<string>,
                     at: Token, isValid: Validity)
    | GetAttribute(target: string, at: Token, isValid: Validity)
    | Disable(target: string, at: Token, isValid: Validity)
    | Login(name: string, password: Option<string>, id: string, creation: int, expiration: int)
    | Logout(at: Token, isValid: Validity)

  /** Serving one request. */
  function Step(s: Store, hash: Hash, req: Request): (o: Outcome)
    ensures o.response.Fail? ==> o.store == s
    ensures Consistent(s) ==> Consistent(o.store)
  {
    match req
    case Register(u, p, c, e, ts) => RegisterOutcome(s, hash, u, p, c, e, ts)
    case Delete(t, at, v) => DeleteOutcome(s, t, at, v)
    case ModifyInfo(e, at, v) => ModifyInfoOutcome(s, e, at, v)
    case ModifyRole(t, r, at, v) => ModifyRoleOutcome(s, t, r, at, v)
    case ModifyState(t, st, at, v) => ModifyStateOutcome(s, t, st, at, v)
    case ModifyPassword(op, p, c, at, v) => ModifyPasswordOutcome(s, hash, op, p, c, at, v)
    case GetAttribute(t, at, v) => Outcome(AttributeResponse(s, t, at, v), s)
    case Disable(t, at, v) => DisableOutcome(s, t, at, v)
    case Login(u, p, id, c, e) => LoginOutcome(s, hash, u, p, id, c, e)
    case Logout(at, v) => LogoutOutcome(s, at, v)
  }

  /** The store after serving `reqs` one after another, starting from `s`;
      every endpoint keeps the store consistent, so the whole sequence
      does. */
  function Run(s: Store, hash: Hash, reqs: seq<Request>): (r: Store)
    ensures Consistent(s) ==> Consistent(r)
    decreases |reqs|
  {
    if reqs == [] then s else Run(Step(s, hash, reqs[0]).store, hash, reqs[1..])
  }

  /** Every store a sequence of requests can reach from the empty one is
      consistent. */
  lemma ReachableStoresAreConsistent(hash: Hash, reqs: seq<Request>)
    ensures Consistent(Run(EmptyStore, hash, reqs))
  {
  }

  /** In a consistent store the only requests that end in a 500 are a role
      change with a null role, a login with a null password and a logout
      with no stored token; every other 500 needs an account without its
      profile or a token without its account. */
  lemma BrokeOnlyOnNulls(s: Store, hash: Hash, req: Request)
    requires Consistent(s)
    requires Step(s, hash, req).response == Broke
    ensures || (req.ModifyRole? && req.role.None?)
            || (req.Login? && req.password.None?)
            || (req.Logout? && req.at.username !in s.tokens)
  {
  }

  /** A refused request changes nothing, so serving it again gives the same
      refusal. */
  lemma RefusalIsRepeatable(s: Store, hash: Hash, req: Request)
    requires Step(s, hash, req).response.Fail?
    ensures Step(Step(s, hash, req).store, hash, req) == Step(s, hash, req)
  {
  }

  /** A fresh registration can log in at once with the same password, and
      the token it gets carries the role "U". */
  lemma RegisteredUserCanLogIn(s: Store, hash: Hash, username: string, password: string, email: string,
                               timestamp: string, id: string, creation: int, expiration: int)
    requires Consistent(s)
    requires RegisterOutcome(s, hash, Some(username), Some(password), Some(password), Some(email), timestamp).response.Ok?
    ensures
      var s' := RegisterOutcome(s, hash, Some(username), Some(password), Some(password), Some(email), timestamp).store;
      LoginOutcome(s', hash, username, Some(password), id, creation, expiration).response
        == TokenIssued(Token(username, id, RoleUser, creation, expiration))
  {
  }

  /** After a successful logout the name holds no token, so the next login is
      not refused as "already logged in". */
  lemma LogoutUnblocksLogin(s: Store, hash: Hash, at: Token, isValid: Validity, password: Option<string>,
                            id: string, creation: int, expiration: int)
    requires LogoutOutcome(s, at, isValid).response.Ok?
    ensures
      var s' := LogoutOutcome(s, at, isValid).store;
      at.username !in s'.tokens
      && LoginOutcome(s', hash, at.username, password, id, creation, expiration).response
           != Fail(Forbidden, AlreadyLoggedIn)
  {
  }

  /** Disabling an account ends its session: afterwards no token presented
      under that name passes the gate, so profile edit and delete refuse it
      as not logged in. */
  lemma DisableEndsSession(s: Store, target: string, at: Token, isValid: Validity,
                           at': Token, isValid': Validity, edits: ProfileEdits)
    requires DisableOutcome(s, target, at, isValid).response.Ok?
    requires at'.username == target
    ensures
      var s' := DisableOutcome(s, target, at, isValid).store;
      && !LoggedIn(s', at', isValid')
      && ModifyInfoOutcome(s', edits, at', isValid').response == Fail(Forbidden, NotLogged)
      && DeleteOutcome(s', target, at', isValid').response == Fail(Forbidden, NotLogged)
  {
  }

  /** A state change, even to "DISABLED", does not end any session: the
      tokens are untouched and so is every verdict of the gate. */
  lemma StateChangeKeepsSessions(s: Store, target: string, state: string, at: Token, isValid: Validity,
                                 at': Token, isValid': Validity)
    requires ModifyStateOutcome(s, target, state, at, isValid).response.Ok?
    ensures LoggedIn(ModifyStateOutcome(s, target, state, at, isValid).store, at', isValid')
         == LoggedIn(s, at', isValid')
  {
  }

  /** A role change keeps the target's session alive (same id and
      expiration) and gives it the new role; no verdict of the gate
      changes. */
  lemma RoleChangeRefreshesSession(s: Store, target: string, role: Option<string>, at: Token, isValid: Validity,
                                   at': Token, isValid': Validity)
    requires ModifyRoleOutcome(s, target, role, at, isValid).response.Ok?
    ensures
      var s' := ModifyRoleOutcome(s, target, role, at, isValid).store;
      && LoggedIn(s', at', isValid') == LoggedIn(s, at', isValid')
      && (target in s'.tokens ==> s'.tokens[target].role == role.value)
  {
    var s' := ModifyRoleOutcome(s, target, role, at, isValid).store;
    if at'.username == target && target in s.tokens {
      AdmitsReadsIdAndExpiration(s.tokens[target], s'.tokens[target], at', isValid');
    }
  }

  /** Deleting an account twice: the second request is refused with a 403
      (not logged in, when the caller deleted itself; no such user,
      otherwise) and changes nothing. */
  lemma DeleteTwiceIsRefused(s: Store, target: string, at: Token, isValid: Validity)
    requires DeleteOutcome(s, target, at, isValid).response.Ok?
    ensures
      var s' := DeleteOutcome(s, target, at, isValid).store;
      var o := DeleteOutcome(s', target, at, isValid);
      && o.store == s'
      && o.response == Fail(Forbidden, if target == at.username then NotLogged else NoSuchUser)
  {
  }

  /** The state-change endpoint reads the role of the presented token, not
      the stored one: whatever role the stored token holds, the response is
      the same. */
  lemma StateChangeIgnoresStoredRole(s: Store, target: string, state: string, at: Token, isValid: Validity,
                                     role: string)
    requires at.username in s.tokens
    ensures
      var forged := s.(tokens := s.tokens[at.username := s.tokens[at.username].(role := role)]);
      ModifyStateOutcome(forged, target, state, at, isValid).response
        == ModifyStateOutcome(s, target, state, at, isValid).response
  {
  }

  /** The same holds of disabling. */
  lemma DisableIgnoresStoredRole(s: Store, target: string, at: Token, isValid: Validity, role: string)
    requires at.username in s.tokens
    ensures
      var forged := s.(tokens := s.tokens[at.username := s.tokens[at.username].(role := role)]);
      DisableOutcome(forged, target, at, isValid).response == DisableOutcome(s, target, at, isValid).response
  {
  }

  /** Deletion, by contrast, reads the stored role: a "U" caller presenting a
      token that claims "SU" still cannot delete another account. */
  lemma DeleteReadsStoredRole(s: Store, target: string, at: Token, isValid: Validity)
    requires at.username in s.tokens && s.tokens[at.username].role == RoleUser && target != at.username
    ensures !DeleteOutcome(s, target, at.(role := RoleSuper), isValid).response.Ok?
  {
  }

  /** The store of the scenario below: "eve" is a "U" whose stored token says
      so, "boss" a GA. */
  const ForgeryStore := Store(
    map["eve" := User("h", "e@x", "t"), "boss" := User("h", "b@x", "t")],
    map["eve" := DefaultProfile, "boss" := DefaultProfile.(role := RoleBackend)],
    map["eve" := Token("eve", "id1", RoleUser, 0, 10)])

  /** With a token whose id matches but whose role field claims "SU", the
      "U" account "eve" disables the GA "boss" and may change its state. */
  lemma PresentedRoleIsTrusted()
    ensures
      var at := Token("eve", "id1", RoleSuper, 0, 10);
      var valid: Validity := (t, e) => true;
      && DisableOutcome(ForgeryStore, "boss", at, valid).response == Ok
      && ModifyStateOutcome(ForgeryStore, "boss", StateEnabled, at, valid).response == Ok
  {
  }

  /** A six-character password is accepted, although the refusal message for
      short passwords asks for more than six. */
  lemma SixCharacterPasswordAccepted(s: Store, hash: Hash, username: string, email: string, timestamp: string)
    requires username !in s.users && username !in s.profiles
    ensures RegisterOutcome(s, hash, Some(username), Some("secret"), Some("secret"), Some(email), timestamp).response == Ok
  {
  }

  /** Register "alice", log in, try to log in again with a wrong password
      (refused as already logged in, before the password is looked at), log
      out, and try the wrong password again (now refused as incorrect,
      provided the two passwords' digests differ). */
  lemma AliceScenario(hash: Hash, ts: string, id: string, c: int, e: int, isValid: Validity)
    requires hash("wrong") != hash("secret1")
    requires isValid(Token("alice", id, RoleUser, c, e), e)
    ensures
      var s1 := RegisterOutcome(EmptyStore, hash, Some("alice"), Some("secret1"), Some("secret1"), Some("a@x.com"), ts);
      var s2 := LoginOutcome(s1.store, hash, "alice", Some("secret1"), id, c, e);
      var s3 := LoginOutcome(s2.store, hash, "alice", Some("wrong"), id, c, e);
      var s4 := LogoutOutcome(s3.store, Token("alice", id, RoleUser, c, e), isValid);
      var s5 := LoginOutcome(s4.store, hash, "alice", Some("wrong"), id, c, e);
      && s1.response == Ok
      && s2.response == TokenIssued(Token("alice", id, RoleUser, c, e))
      && s3.response == Fail(Forbidden, AlreadyLoggedIn)
      && s4.response == Ok
      && s5.response == Fail(Forbidden, IncorrectPassword)
  {
  }
}
