/** The `/sign` endpoints: login issues the session token, logout removes
    it. As in `UserResource`, each endpoint is a function of the store and a
    method of the class `LoginResource` proved equal to it. */
module LoginResource {
  import opened Entities
  import opened UserData
  import opened Auth
  import Datastore

  /** `login`. The new `AuthToken`'s random id and its creation and
      expiration times are parameters: `id`, `creation`, `expiration`.
      `password` is `data.password`, which may be null. */
  function LoginOutcome(s: Store, hash: Hash, username: string, password: Option<string>,
                        id: string, creation: int, expiration: int): (o: Outcome)
    ensures o.response.Fail? ==> o.store == s
    ensures o.response.TokenIssued? || o.response.FailedWith(Forbidden) || o.response == Broke
    // an existing token refuses the login, whatever the password
    ensures username in s.tokens ==> o.response == Fail(Forbidden, AlreadyLoggedIn)
    // then, in this order: no such user, wrong digest, disabled, all 403
    ensures username !in s.tokens ==>
      && (username !in s.users ==> o.response == Fail(Forbidden, NoSuchUser))
      && (username in s.users && password.Some? && s.users[username].password != hash(password.value) ==>
            o.response == Fail(Forbidden, IncorrectPassword))
      && (username in s.users && password.Some? && s.users[username].password == hash(password.value)
          && username in s.profiles && s.profiles[username].state == StateDisabled ==>
            o.response == Fail(Forbidden, AccountDisabled))
    // a 500 for a null password, or an account without a profile
    ensures o.response == Broke <==>
      && username !in s.tokens && username in s.users
      && (password.None? || (s.users[username].password == hash(password.value) && username !in s.profiles))
    ensures o.response.TokenIssued? <==>
      && username !in s.tokens && username in s.users && password.Some?
      && s.users[username].password == hash(password.value)
      && username in s.profiles && s.profiles[username].state != StateDisabled
    // success stores exactly one new token, under the username, carrying the
    // profile's current role; accounts and profiles stay
    ensures o.response.TokenIssued? ==>
      && o.response.token == Token(username, id, s.profiles[username].role, creation, expiration)
      && o.store.tokens == s.tokens[username := o.response.token]
      && o.store.users == s.users && o.store.profiles == s.profiles
    ensures Consistent(s) ==> Consistent(o.store)
  {
    if username in s.tokens then Refuse(s, Forbidden, AlreadyLoggedIn)
    else if username !in s.users then Refuse(s, Forbidden, NoSuchUser)
    // `sha512Hex` of a null password
    else if password.None? then Outcome(Broke, s)
    else if s.users[username].password != hash(password.value) then Refuse(s, Forbidden, IncorrectPassword)
    // `profile.getString` on a null profile
    else if username !in s.profiles then Outcome(Broke, s)
    else if s.profiles[username].state == StateDisabled then Refuse(s, Forbidden, AccountDisabled)
    else
      var t := Token(username, id, s.profiles[username].role, creation, expiration);
      Outcome(TokenIssued(t), s.(tokens := s.tokens[username := t]))
  }

  /** `logout`: `at` is `data.at`. With no stored token, reading the stored
      expiration dereferences null, which ends in a 500. */
  function LogoutOutcome(s: Store, at: Token, isValid: Validity): (o: Outcome)
    ensures o.response.Fail? ==> o.store == s
    ensures o.response.Ok? || o.response.FailedWith(Forbidden) || o.response == Broke
    ensures at.username !in s.tokens <==> o.response == Broke
    ensures o.response.Ok? <==> LoggedIn(s, at, isValid)
    // a stored token the gate refuses gives 403 "not logged"
    ensures at.username in s.tokens && !LoggedIn(s, at, isValid) ==> o.response == Fail(Forbidden, NotLogged)
    // success removes the caller's token and nothing else
    ensures o.response.Ok? ==> o.store == s.(tokens := s.tokens - {at.username})
    ensures Consistent(s) ==> Consistent(o.store)
  {
    if at.username !in s.tokens then Outcome(Broke, s)
    else
      var token := s.tokens[at.username];
      if Admits(Some(token), at, isValid) then
        Outcome(Ok, s.(tokens := s.tokens - {at.username}))
      else Refuse(s, Forbidden, NotLogged)
  }

  class LoginResource {
    const datastore: Datastore.Datastore
    const hash: Hash

    constructor (datastore: Datastore.Datastore, hash: Hash)
      ensures this.datastore == datastore && this.hash == hash
    {
      this.datastore := datastore;
      this.hash := hash;
    }

    method Login(username: string, password: Option<string>, id: string, creation: int, expiration: int)
      returns (r: Response)
      modifies datastore
      ensures Outcome(r, datastore.Snapshot())
           == LoginOutcome(old(datastore.Snapshot()), hash, username, password, id, creation, expiration)
      ensures old(datastore.Valid()) ==> datastore.Valid()
    {
      var user := Lookup(datastore.users, username);
      var profile := Lookup(datastore.profiles, username);
      var oldToken := Lookup(datastore.tokens, username);
      if oldToken.Some? {
        return Fail(Forbidden, AlreadyLoggedIn);
      }
      if user.None? {
        return Fail(Forbidden, NoSuchUser);
      }
      var hashedPwd := user.value.password;
      if password.None? {
        return Broke;
      }
      if hashedPwd != hash(password.value) {
        return Fail(Forbidden, IncorrectPassword);
      }
      if profile.None? {
        return Broke;
      }
      if profile.value.state == StateDisabled {
        return Fail(Forbidden, AccountDisabled);
      }
      var at := Token(username, id, profile.value.role, creation, expiration);
      datastore.tokens := datastore.tokens[username := at];   // txn.put(token); txn.commit()
      r := TokenIssued(at);
    }

    method Logout(at: Token, isValid: Validity) returns (r: Response)
      modifies datastore
      ensures Outcome(r, datastore.Snapshot()) == LogoutOutcome(old(datastore.Snapshot()), at, isValid)
      ensures old(datastore.Valid()) ==> datastore.Valid()
    {
      var token := Lookup(datastore.tokens, at.username);
      if token.None? {
        return Broke;
      }
      if isValid(at, token.value.expirationData) && at.id == token.value.id {
        datastore.tokens := datastore.tokens - {at.username};   // txn.delete(tokenKey); txn.commit()
        r := Ok;
      } else {
        r := Fail(Forbidden, NotLogged);
      }
    }
  }
}
