/** The `/user` endpoints: registration, deletion, profile edits, role and
    state changes, password change, attribute read and disabling.

    Each endpoint is given twice: as a function from the store it finds to
    its `Outcome` (the rules, with the properties they promise as `ensures`),
    and as a method of the class `UserResource` that reads the records, runs
    the checks in the source's order and then either returns a failure
    without touching the store (the rollback) or writes the new records (the
    commit). The method's contract ties it to the function. */
module UserResource {
  import opened Entities
  import opened UserData
  import opened Auth
  import Datastore

  /* ---------------- permission rules ---------------- */

  /** `deleteUser`: a "U" may remove only its own account; GBO, GA and SU
      only the accounts of others. */
  function MayDelete(target: string, caller: string, callerRole: string): (b: bool)
    ensures b <==> IsRole(callerRole) && (target == caller <==> Rank(callerRole) == 0)
  {
    || (target == caller && callerRole == RoleUser)
    || (target != caller && (callerRole == RoleBackoffice || callerRole == RoleBackend || callerRole == RoleSuper))
  }

  /** `modifyUserRole`: only a "U" is promoted, to GBO by a GA or SU, or to GA
      by an SU. Equivalently: a promotion strictly upwards to a role strictly
      below the caller's. */
  function MayChangeRole(callerRole: string, targetRole: string, newRole: string): (b: bool)
    ensures b <==>
      && targetRole == RoleUser && IsRole(newRole) && IsRole(callerRole)
      && Rank(targetRole) < Rank(newRole) < Rank(callerRole)
    ensures b ==> newRole != RoleSuper && newRole != targetRole
  {
    && targetRole == RoleUser
    && (|| (newRole == RoleBackoffice && (callerRole == RoleBackend || callerRole == RoleSuper))
        || (newRole == RoleBackend && callerRole == RoleSuper))
  }

  /** `getUserAttribute`: GBO, GA and SU may read any account. */
  function MayReadAttributes(callerRole: string): (b: bool)
    ensures b <==> IsRole(callerRole) && Rank(callerRole) >= 1
  {
    callerRole == RoleBackoffice || callerRole == RoleBackend || callerRole == RoleSuper
  }

  /** `disableUser`: GA and SU may disable, whoever the target is. */
  function MayDisable(callerRole: string): (b: bool)
    ensures b <==> IsRole(callerRole) && Rank(callerRole) >= 2
    ensures b ==> MayReadAttributes(callerRole)
  {
    callerRole == RoleBackend || callerRole == RoleSuper
  }

  /* ---------------- record builders ---------------- */

  /** The profile every registration creates. */
  const DefaultProfile := Profile(ProfilePrivate, RoleUser, StateEnabled, "", "", "", "", "")

  /** The optional fields of a profile edit; `None` is a null field of the
      request. */
  datatype ProfileEdits = ProfileEdits(
    profile: Option<string>,
    landline: Option<string>,
    mobilePhone: Option<string>,
    address: Option<string>,
    complementAddress: Option<string>,
    locality: Option<string>)

  const NoEdits := ProfileEdits(None, None, None, None, None, None)

  /** The profile `modifyUserInfo` builds: each editable field from the
      request when given, else the old one; role and state always the old
      ones. */
  function Edited(p: Profile, e: ProfileEdits): (q: Profile)
    ensures q.role == p.role && q.state == p.state
    ensures q.profile == (if e.profile.Some? then e.profile.value else p.profile)
    ensures q.landline == (if e.landline.Some? then e.landline.value else p.landline)
    ensures q.mobilePhone == (if e.mobilePhone.Some? then e.mobilePhone.value else p.mobilePhone)
    ensures q.address == (if e.address.Some? then e.address.value else p.address)
    ensures q.complementAddress == (if e.complementAddress.Some? then e.complementAddress.value else p.complementAddress)
    ensures q.locality == (if e.locality.Some? then e.locality.value else p.locality)
  {
    Profile(
      e.profile.GetOr(p.profile),
      p.role,
      p.state,
      e.landline.GetOr(p.landline),
      e.mobilePhone.GetOr(p.mobilePhone),
      e.address.GetOr(p.address),
      e.complementAddress.GetOr(p.complementAddress),
      e.locality.GetOr(p.locality))
  }

  /** An edit with no fields is the identity, and applying an edit twice is
      applying it once. */
  lemma EditedLaws(p: Profile, e: ProfileEdits)
    ensures Edited(p, NoEdits) == p
    ensures Edited(Edited(p, e), e) == Edited(p, e)
  {
  }

  /* ---------------- the endpoints as functions of the store ---------------- */

  /** `registUser`. */
  function RegisterOutcome(s: Store, hash: Hash, username: Option<string>, password: Option<string>,
                           confirmation: Option<string>, email: Option<string>, timestamp: string): (o: Outcome)
    // a failure leaves the store as it was; every failure is a 400, 409 or 500
    ensures o.response.Fail? ==> o.store == s && o.response.status != Forbidden
    ensures o.response.Ok? || o.response.Fail?
    // a null field is refused before the store is read
    ensures username.None? || password.None? || confirmation.None? || email.None? ==>
              o.response == Fail(BadRequest, NullData)
    // then, in this order: mismatched confirmation (409), short password
    // (409), taken name (400), a profile left under a free name (500)
    ensures username.Some? && password.Some? && confirmation.Some? && email.Some? ==>
      && (password.value != confirmation.value ==> o.response == Fail(Conflict, PasswordsDoNotMatch))
      && (password.value == confirmation.value && |password.value| < 6 ==>
            o.response == Fail(Conflict, PasswordTooShort))
      && (password.value == confirmation.value && |password.value| >= 6 && username.value in s.users ==>
            o.response == Fail(BadRequest, UsernameExists))
    ensures o.response == Broke <==>
      && username.Some? && password.Some? && confirmation.Some? && email.Some?
      && password.value == confirmation.value && |password.value| >= 6
      && username.value !in s.users && username.value in s.profiles
    ensures o.response.Ok? <==>
      && username.Some? && password.Some? && confirmation.Some? && email.Some?
      && password.value == confirmation.value && |password.value| >= 6
      && username.value !in s.users && username.value !in s.profiles
    // success adds the account and the default profile and nothing else
    ensures o.response.Ok? ==>
      && o.store.users == s.users[username.value := User(hash(password.value), email.value, timestamp)]
      && o.store.profiles == s.profiles[username.value := DefaultProfile]
      && o.store.tokens == s.tokens
    ensures Consistent(s) ==> Consistent(o.store)
  {
    if username.None? || password.None? || confirmation.None? || email.None? then
      Refuse(s, BadRequest, NullData)
    else
      var name, pwd := username.value, password.value;
      if pwd != confirmation.value then Refuse(s, Conflict, PasswordsDoNotMatch)
      else if |pwd| < 6 then Refuse(s, Conflict, PasswordTooShort)
      else if name in s.users then Refuse(s, BadRequest, UsernameExists)
      // `txn.add` of a Profile whose key is taken makes the commit fail
      else if name in s.profiles then Outcome(Broke, s)
      else Outcome(Ok, s.(users := s.users[name := User(hash(pwd), email.value, timestamp)],
                          profiles := s.profiles[name := DefaultProfile]))
  }

  /** `deleteUser`: `target` is `data.username`, `at` is `data.at`. */
  function DeleteOutcome(s: Store, target: string, at: Token, isValid: Validity): (o: Outcome)
    ensures o.response.Fail? ==> o.store == s
    ensures o.response.Ok? || o.response.FailedWith(Forbidden)
    ensures !LoggedIn(s, at, isValid) ==> o.response == Fail(Forbidden, NotLogged)
    ensures LoggedIn(s, at, isValid) ==>
      && (target !in s.users ==> o.response == Fail(Forbidden, NoSuchUser))
      && (target in s.users && !MayDelete(target, at.username, s.tokens[at.username].role) ==>
            o.response == Fail(Forbidden, NoPermission))
    ensures o.response.Ok? <==>
      LoggedIn(s, at, isValid) && target in s.users && MayDelete(target, at.username, s.tokens[at.username].role)
    // a caller whose stored role is not "U" cannot delete itself
    ensures target == at.username && at.username in s.tokens && s.tokens[at.username].role != RoleUser ==>
              !o.response.Ok?
    // success removes the target's account, profile and token, and nothing else
    ensures o.response.Ok? ==>
      o.store == Store(s.users - {target}, s.profiles - {target}, s.tokens - {target})
    ensures Consistent(s) ==> Consistent(o.store)
  {
    var stored := Lookup(s.tokens, at.username);
    if !Admits(stored, at, isValid) then Refuse(s, Forbidden, NotLogged)
    else if target !in s.users then Refuse(s, Forbidden, NoSuchUser)
    else if MayDelete(target, at.username, stored.value.role) then
      Outcome(Ok, Store(s.users - {target}, s.profiles - {target}, s.tokens - {target}))
    else Refuse(s, Forbidden, NoPermission)
  }

  /** `modifyUserInfo`: the caller edits its own profile. */
  function ModifyInfoOutcome(s: Store, edits: ProfileEdits, at: Token, isValid: Validity): (o: Outcome)
    ensures o.response.Fail? ==> o.store == s
    ensures o.response.Ok? || o.response.FailedWith(Forbidden) || o.response == Broke
    ensures !LoggedIn(s, at, isValid) ==> o.response == Fail(Forbidden, NotLogged)
    ensures LoggedIn(s, at, isValid) && at.username !in s.users ==> o.response == Fail(Forbidden, NoSuchUser)
    // a 500 only for an account without a profile
    ensures o.response == Broke <==>
      LoggedIn(s, at, isValid) && at.username in s.users && at.username !in s.profiles
    ensures o.response.Ok? <==> LoggedIn(s, at, isValid) && at.username in s.users && at.username in s.profiles
    // success replaces only the caller's profile, by the edited one
    ensures o.response.Ok? ==>
      && o.store.users == s.users && o.store.tokens == s.tokens
      && o.store.profiles == s.profiles[at.username := Edited(s.profiles[at.username], edits)]
    ensures Consistent(s) ==> Consistent(o.store)
  {
    var name := at.username;
    if !LoggedIn(s, at, isValid) then Refuse(s, Forbidden, NotLogged)
    else if name !in s.users then Refuse(s, Forbidden, NoSuchUser)
    // `profile.getString` on a null profile
    else if name !in s.profiles then Outcome(Broke, s)
    else Outcome(Ok, s.(profiles := s.profiles[name := Edited(s.profiles[name], edits)]))
  }

  /** `modifyUserRole`: `newRole` is `data.role`, which may be null. */
  function ModifyRoleOutcome(s: Store, target: string, newRole: Option<string>, at: Token, isValid: Validity): (o: Outcome)
    ensures o.response.Fail? ==> o.store == s
    ensures o.response.Ok? || o.response.FailedWith(Forbidden) || o.response == Broke
    ensures !LoggedIn(s, at, isValid) ==> o.response == Fail(Forbidden, NotLogged)
    ensures LoggedIn(s, at, isValid) && target !in s.users ==> o.response == Fail(Forbidden, NoSuchUser)
    // a 500 for a target account without a profile, or a null role for a "U"
    ensures o.response == Broke <==>
      && LoggedIn(s, at, isValid) && target in s.users
      && (target !in s.profiles || (s.profiles[target].role == RoleUser && newRole.None?))
    ensures LoggedIn(s, at, isValid) && target in s.users && target in s.profiles ==>
      && (s.profiles[target].role != RoleUser ==> o.response == Fail(Forbidden, NoPermission))
      && (newRole.Some? && !MayChangeRole(s.tokens[at.username].role, s.profiles[target].role, newRole.value) ==>
            o.response == Fail(Forbidden, NoPermission))
    ensures o.response.Ok? <==>
      && LoggedIn(s, at, isValid) && target in s.users && target in s.profiles && newRole.Some?
      && MayChangeRole(s.tokens[at.username].role, s.profiles[target].role, newRole.value)
    // success is a promotion, changes only the target profile's role, and
    // gives the target's token, if any, the new role with all else kept
    ensures o.response.Ok? ==>
      && o.store.users == s.users
      && Rank(s.profiles[target].role) < Rank(newRole.value)
      && o.store.profiles == s.profiles[target := s.profiles[target].(role := newRole.value)]
      && o.store.tokens.Keys == s.tokens.Keys
      && (target in s.tokens ==> o.store.tokens == s.tokens[target := s.tokens[target].(role := newRole.value)])
      && (target !in s.tokens ==> o.store.tokens == s.tokens)
    ensures Consistent(s) ==> Consistent(o.store)
  {
    var stored := Lookup(s.tokens, at.username);
    if !Admits(stored, at, isValid) then Refuse(s, Forbidden, NotLogged)
    else if target !in s.users then Refuse(s, Forbidden, NoSuchUser)
    // `profile.getString` on a null profile
    else if target !in s.profiles then Outcome(Broke, s)
    else
      var p := s.profiles[target];
      // `data.role.equals` on a null role, reached only when the target is a "U"
      if p.role == RoleUser && newRole.None? then Outcome(Broke, s)
      else if !(newRole.Some? && MayChangeRole(stored.value.role, p.role, newRole.value)) then
        Refuse(s, Forbidden, NoPermission)
      else
        var role := newRole.value;
        var tokens := if target in s.tokens then s.tokens[target := s.tokens[target].(role := role)] else s.tokens;
        Outcome(Ok, s.(profiles := s.profiles[target := p.(role := role)], tokens := tokens))
  }

  /** `modifyUserState`: authorised by the role in the PRESENTED token. */
  function ModifyStateOutcome(s: Store, target: string, newState: string, at: Token, isValid: Validity): (o: Outcome)
    ensures o.response.Fail? ==> o.store == s
    ensures o.response.Ok? || o.response.FailedWith(Forbidden) || o.response == Broke
    ensures !LoggedIn(s, at, isValid) ==> o.response == Fail(Forbidden, NotLogged)
    ensures LoggedIn(s, at, isValid) ==>
      && (target !in s.users ==> o.response == Fail(Forbidden, NoSuchUser))
      && (target in s.users && target in s.profiles && !ValidStateChange(at.role, s.profiles[target].role) ==>
            o.response == Fail(Forbidden, NoPermission))
    // a 500 only for a target account without a profile
    ensures o.response == Broke <==> LoggedIn(s, at, isValid) && target in s.users && target !in s.profiles
    ensures o.response.Ok? <==>
      LoggedIn(s, at, isValid) && target in s.users && target in s.profiles
      && ValidStateChange(at.role, s.profiles[target].role)
    // success sets only the target profile's state; accounts and tokens stay
    ensures o.response.Ok? ==>
      && o.store.users == s.users && o.store.tokens == s.tokens
      && o.store.profiles == s.profiles[target := s.profiles[target].(state := newState)]
    ensures Consistent(s) ==> Consistent(o.store)
  {
    if !LoggedIn(s, at, isValid) then Refuse(s, Forbidden, NotLogged)
    else if target !in s.users then Refuse(s, Forbidden, NoSuchUser)
    // `profile.getString` on a null profile
    else if target !in s.profiles then Outcome(Broke, s)
    else if ValidStateChange(at.role, s.profiles[target].role) then
      Outcome(Ok, s.(profiles := s.profiles[target := s.profiles[target].(state := newState)]))
    else Refuse(s, Forbidden, NoPermission)
  }

  /** `modifyUserPassword`: the caller changes its own password. */
  function ModifyPasswordOutcome(s: Store, hash: Hash, oldPassword: Option<string>, password: Option<string>,
                                 confirmation: Option<string>, at: Token, isValid: Validity): (o: Outcome)
    ensures o.response.Fail? ==> o.store == s
    ensures o.response.Ok? || o.response.FailedWith(Forbidden) || o.response == Broke
    ensures !LoggedIn(s, at, isValid) ==> o.response == Fail(Forbidden, NotLogged)
    ensures LoggedIn(s, at, isValid) && (oldPassword.None? || password.None? || confirmation.None?) ==>
              o.response == Fail(Forbidden, NullPasswords)
    // then, in this order: old password wrong, new one short, confirmation
    // different, all 403
    ensures LoggedIn(s, at, isValid) && oldPassword.Some? && password.Some? && confirmation.Some?
            && at.username in s.users ==>
      && (hash(oldPassword.value) != s.users[at.username].password ==>
            o.response == Fail(Forbidden, OldPasswordIncorrect))
      && (hash(oldPassword.value) == s.users[at.username].password && |password.value| < 6 ==>
            o.response == Fail(Forbidden, PasswordTooShort))
      && (hash(oldPassword.value) == s.users[at.username].password && |password.value| >= 6
          && password.value != confirmation.value ==>
            o.response == Fail(Forbidden, ConfirmationMismatch))
    // a 500 only for a token whose account is gone
    ensures o.response == Broke <==>
      LoggedIn(s, at, isValid) && oldPassword.Some? && password.Some? && confirmation.Some?
      && at.username !in s.users
    ensures o.response.Ok? <==>
      && LoggedIn(s, at, isValid) && oldPassword.Some? && password.Some? && confirmation.Some?
      && at.username in s.users && hash(oldPassword.value) == s.users[at.username].password
      && |password.value| >= 6 && password.value == confirmation.value
    // success stores the new digest, keeps email and creation time, and
    // touches neither profiles nor tokens
    ensures o.response.Ok? ==>
      && o.store.users == s.users[at.username := User(hash(password.value), s.users[at.username].email,
                                                      s.users[at.username].creationTimestamp)]
      && o.store.profiles == s.profiles && o.store.tokens == s.tokens
    ensures Consistent(s) ==> Consistent(o.store)
  {
    var name := at.username;
    if !LoggedIn(s, at, isValid) then Refuse(s, Forbidden, NotLogged)
    else if oldPassword.None? || password.None? || confirmation.None? then Refuse(s, Forbidden, NullPasswords)
    // `user.getString` on a null user
    else if name !in s.users then Outcome(Broke, s)
    else if hash(oldPassword.value) != s.users[name].password then Refuse(s, Forbidden, OldPasswordIncorrect)
    else if |password.value| < 6 then Refuse(s, Forbidden, PasswordTooShort)
    else if password.value != confirmation.value then Refuse(s, Forbidden, ConfirmationMismatch)
    else Outcome(Ok, s.(users := s.users[name := s.users[name].(password := hash(password.value))]))
  }

  /** `getUserAttribute`: reads only, so it gives a response and no store. */
  function AttributeResponse(s: Store, target: string, at: Token, isValid: Validity): (r: Response)
    ensures r.AttributesRead? || r.FailedWith(Forbidden)
    ensures !LoggedIn(s, at, isValid) ==> r == Fail(Forbidden, NotLogged)
    ensures LoggedIn(s, at, isValid) ==>
      && (target !in s.users ==> r == Fail(Forbidden, NoSuchUser))
      && (target in s.users && !MayReadAttributes(s.tokens[at.username].role) ==> r == Fail(Forbidden, NoPermission))
    ensures r.AttributesRead? <==>
      LoggedIn(s, at, isValid) && target in s.users && MayReadAttributes(s.tokens[at.username].role)
    // what is returned is the target's stored account and profile
    ensures r.AttributesRead? ==> r.user == s.users[target] && r.profile == Lookup(s.profiles, target)
  {
    var stored := Lookup(s.tokens, at.username);
    if !Admits(stored, at, isValid) then Fail(Forbidden, NotLogged)
    else if target !in s.users then Fail(Forbidden, NoSuchUser)
    else if !MayReadAttributes(stored.value.role) then Fail(Forbidden, NoPermission)
    else AttributesRead(s.users[target], Lookup(s.profiles, target))
  }

  /** `disableUser`: authorised by the role in the PRESENTED token. */
  function DisableOutcome(s: Store, target: string, at: Token, isValid: Validity): (o: Outcome)
    ensures o.response.Fail? ==> o.store == s
    ensures o.response.Ok? || o.response.FailedWith(Forbidden) || o.response == Broke
    ensures !LoggedIn(s, at, isValid) ==> o.response == Fail(Forbidden, NotLogged)
    // then, in this order: no such user, no permission, not enabled, all 403
    ensures LoggedIn(s, at, isValid) ==>
      && (target !in s.users ==> o.response == Fail(Forbidden, NoSuchUser))
      && (target in s.users && !MayDisable(at.role) ==> o.response == Fail(Forbidden, NoPermission))
      && (target in s.users && MayDisable(at.role) && target in s.profiles && s.profiles[target].state != StateEnabled ==>
            o.response == Fail(Forbidden, AlreadyDisabled))
    // a 500 only for a target account without a profile
    ensures o.response == Broke <==>
      LoggedIn(s, at, isValid) && target in s.users && MayDisable(at.role) && target !in s.profiles
    ensures o.response.Ok? <==>
      LoggedIn(s, at, isValid) && target in s.users && MayDisable(at.role)
      && target in s.profiles && s.profiles[target].state == StateEnabled
    // success disables the target's profile, all other fields copied, and
    // removes the target's token; accounts stay
    ensures o.response.Ok? ==>
      && o.store.users == s.users
      && o.store.profiles == s.profiles[target := s.profiles[target].(state := StateDisabled)]
      && o.store.tokens == s.tokens - {target}
    ensures Consistent(s) ==> Consistent(o.store)
  {
    if !LoggedIn(s, at, isValid) then Refuse(s, Forbidden, NotLogged)
    else if target !in s.users then Refuse(s, Forbidden, NoSuchUser)
    else if !MayDisable(at.role) then Refuse(s, Forbidden, NoPermission)
    // `profile.getString` on a null profile
    else if target !in s.profiles then Outcome(Broke, s)
    else if s.profiles[target].state == StateEnabled then
      Outcome(Ok, Store(s.users, s.profiles[target := s.profiles[target].(state := StateDisabled)], s.tokens - {target}))
    else Refuse(s, Forbidden, AlreadyDisabled)
  }

  /* ---------------- the resource ---------------- */

  class UserResource {
    const datastore: Datastore.Datastore
    const hash: Hash

    constructor (datastore: Datastore.Datastore, hash: Hash)
      ensures this.datastore == datastore && this.hash == hash
    {
      this.datastore := datastore;
      this.hash := hash;
    }

    method RegistUser(username: Option<string>, password: Option<string>, confirmation: Option<string>,
                      email: Option<string>, timestamp: string) returns (r: Response)
      modifies datastore
      ensures Outcome(r, datastore.Snapshot())
           == RegisterOutcome(old(datastore.Snapshot()), hash, username, password, confirmation, email, timestamp)
      ensures old(datastore.Valid()) ==> datastore.Valid()
    {
      if username.None? || password.None? || confirmation.None? || email.None? {
        return Fail(BadRequest, NullData);
      }
      var name := username.value;
      var user := Lookup(datastore.users, name);
      var profile := Lookup(datastore.profiles, name);
      if password.value != confirmation.value {
        return Fail(Conflict, PasswordsDoNotMatch);
      }
      if |password.value| < 6 {
        return Fail(Conflict, PasswordTooShort);
      }
      if user.Some? {
        return Fail(BadRequest, UsernameExists);
      }
      var users, profiles := datastore.users, datastore.profiles;
      users := users[name := User(hash(password.value), email.value, timestamp)];   // txn.add(user)
      if profile.Some? {
        // the add of a Profile whose key is taken fails at commit
        return Broke;
      }
      profiles := profiles[name := DefaultProfile];                               // txn.add(profile)
      datastore.users, datastore.profiles := users, profiles;                     // txn.commit()
      r := Ok;
    }

    method DeleteUser(target: string, at: Token, isValid: Validity) returns (r: Response)
      modifies datastore
      ensures Outcome(r, datastore.Snapshot()) == DeleteOutcome(old(datastore.Snapshot()), target, at, isValid)
      ensures old(datastore.Valid()) ==> datastore.Valid()
    {
      var userToRm := Lookup(datastore.users, target);
      var tokenToRm := Lookup(datastore.tokens, target);
      var token := Lookup(datastore.tokens, at.username);
      if !Admits(token, at, isValid) {
        return Fail(Forbidden, NotLogged);
      }
      if userToRm.None? {
        return Fail(Forbidden, NoSuchUser);
      }
      var role := token.value.role;
      if MayDelete(target, at.username, role) {
        var users, profiles, tokens := datastore.users, datastore.profiles, datastore.tokens;
        users := users - {target};            // txn.delete(userToRmKey)
        profiles := profiles - {target};      // txn.delete(profileToRmKey)
        if tokenToRm.Some? {
          tokens := tokens - {target};        // txn.delete(tokenToRmKey)
        }
        datastore.users, datastore.profiles, datastore.tokens := users, profiles, tokens;
        r := Ok;
      } else {
        r := Fail(Forbidden, NoPermission);
      }
    }

    method ModifyUserInfo(edits: ProfileEdits, at: Token, isValid: Validity) returns (r: Response)
      modifies datastore
      ensures Outcome(r, datastore.Snapshot()) == ModifyInfoOutcome(old(datastore.Snapshot()), edits, at, isValid)
      ensures old(datastore.Valid()) ==> datastore.Valid()
    {
      var name := at.username;
      var user := Lookup(datastore.users, name);
      var profile := Lookup(datastore.profiles, name);
      var token := Lookup(datastore.tokens, name);
      if !Admits(token, at, isValid) {
        return Fail(Forbidden, NotLogged);
      }
      if user.None? {
        return Fail(Forbidden, NoSuchUser);
      }
      if profile.None? {
        return Broke;
      }
      var newProfile := Edited(profile.value, edits);
      var profiles := datastore.profiles - {name};   // txn.delete(oldProfileKey)
      profiles := profiles[name := newProfile];      // txn.add(newProfile)
      datastore.profiles := profiles;                // txn.commit()
      r := Ok;
    }

    method ModifyUserRole(target: string, newRole: Option<string>, at: Token, isValid: Validity) returns (r: Response)
      modifies datastore
      ensures Outcome(r, datastore.Snapshot())
           == ModifyRoleOutcome(old(datastore.Snapshot()), target, newRole, at, isValid)
      ensures old(datastore.Valid()) ==> datastore.Valid()
    {
      var user := Lookup(datastore.users, target);
      var profile := Lookup(datastore.profiles, target);
      var token := Lookup(datastore.tokens, at.username);
      var oldToken := Lookup(datastore.tokens, target);
      if !Admits(token, at, isValid) {
        return Fail(Forbidden, NotLogged);
      }
      if user.None? {
        return Fail(Forbidden, NoSuchUser);
      }
      if profile.None? {
        return Broke;
      }
      var role := token.value.role;
      if profile.value.role == RoleUser && newRole.None? {
        return Broke;
      }
      if newRole.Some? && MayChangeRole(role, profile.value.role, newRole.value) {
        var p := profile.value;
        var newProfile := Profile(p.profile, newRole.value, p.state, p.landline, p.mobilePhone,
                                  p.address, p.complementAddress, p.locality);
        var profiles, tokens := datastore.profiles, datastore.tokens;
        profiles := profiles - {target};               // txn.delete(oldProfileKey)
        profiles := profiles[target := newProfile];    // txn.add(newProfile)
        if oldToken.Some? {
          var t := oldToken.value;
          var newToken := Token(t.username, t.id, newRole.value, t.creationData, t.expirationData);
          tokens := tokens - {target};                 // txn.delete(oldTokenKey)
          tokens := tokens[target := newToken];        // txn.add(newToken)
        }
        datastore.profiles, datastore.tokens := profiles, tokens;
        r := Ok;
      } else {
        r := Fail(Forbidden, NoPermission);
      }
    }

    method ModifyUserState(target: string, newState: string, at: Token, isValid: Validity) returns (r: Response)
      modifies datastore
      ensures Outcome(r, datastore.Snapshot())
           == ModifyStateOutcome(old(datastore.Snapshot()), target, newState, at, isValid)
      ensures old(datastore.Valid()) ==> datastore.Valid()
    {
      var user := Lookup(datastore.users, target);
      var profile := Lookup(datastore.profiles, target);
      var token := Lookup(datastore.tokens, at.username);
      if !Admits(token, at, isValid) {
        return Fail(Forbidden, NotLogged);
      }
      if user.None? {
        return Fail(Forbidden, NoSuchUser);
      }
      if profile.None? {
        return Broke;
      }
      if ValidStateChange(at.role, profile.value.role) {
        var p := profile.value;
        var newProfile := Profile(p.profile, p.role, newState, p.landline, p.mobilePhone,
                                  p.address, p.complementAddress, p.locality);
        var profiles := datastore.profiles - {target};  // txn.delete(oldProfileKey)
        profiles := profiles[target := newProfile];     // txn.add(newProfile)
        datastore.profiles := profiles;                 // txn.commit()
        r := Ok;
      } else {
        r := Fail(Forbidden, NoPermission);
      }
    }

    method ModifyUserPassword(oldPassword: Option<string>, password: Option<string>, confirmation: Option<string>,
                              at: Token, isValid: Validity) returns (r: Response)
      modifies datastore
      ensures Outcome(r, datastore.Snapshot())
           == ModifyPasswordOutcome(old(datastore.Snapshot()), hash, oldPassword, password, confirmation, at, isValid)
      ensures old(datastore.Valid()) ==> datastore.Valid()
    {
      var name := at.username;
      var user := Lookup(datastore.users, name);
      var token := Lookup(datastore.tokens, name);
      if !Admits(token, at, isValid) {
        return Fail(Forbidden, NotLogged);
      }
      if oldPassword.None? || password.None? || confirmation.None? {
        return Fail(Forbidden, NullPasswords);
      }
      if user.None? {
        return Broke;
      }
      if hash(oldPassword.value) != user.value.password {
        return Fail(Forbidden, OldPasswordIncorrect);
      }
      if |password.value| < 6 {
        return Fail(Forbidden, PasswordTooShort);
      }
      if password.value != confirmation.value {
        return Fail(Forbidden, ConfirmationMismatch);
      }
      var newUser := User(hash(password.value), user.value.email, user.value.creationTimestamp);
      var users := datastore.users - {name};   // txn.delete(oldUserKey)
      users := users[name := newUser];         // txn.add(newUser)
      datastore.users := users;                // txn.commit()
      r := Ok;
    }

    /** Reads only: no `modifies` clause, so no record can change. */
    method GetUserAttribute(target: string, at: Token, isValid: Validity) returns (r: Response)
      ensures r == AttributeResponse(datastore.Snapshot(), target, at, isValid)
    {
      var user := Lookup(datastore.users, target);
      var profile := Lookup(datastore.profiles, target);
      var token := Lookup(datastore.tokens, at.username);
      if !Admits(token, at, isValid) {
        return Fail(Forbidden, NotLogged);
      }
      if user.None? {
        return Fail(Forbidden, NoSuchUser);
      }
      var role := token.value.role;
      if !MayReadAttributes(role) {
        return Fail(Forbidden, NoPermission);
      }
      r := AttributesRead(user.value, profile);
    }

    method DisableUser(target: string, at: Token, isValid: Validity) returns (r: Response)
      modifies datastore
      ensures Outcome(r, datastore.Snapshot()) == DisableOutcome(old(datastore.Snapshot()), target, at, isValid)
      ensures old(datastore.Valid()) ==> datastore.Valid()
    {
      var user := Lookup(datastore.users, target);
      var profile := Lookup(datastore.profiles, target);
      var token := Lookup(datastore.tokens, at.username);
      var tokenToRm := Lookup(datastore.tokens, target);
      if !Admits(token, at, isValid) {
        return Fail(Forbidden, NotLogged);
      }
      if user.None? {
        return Fail(Forbidden, NoSuchUser);
      }
      if !MayDisable(at.role) {
        return Fail(Forbidden, NoPermission);
      }
      if profile.None? {
        return Broke;
      }
      if profile.value.state == StateEnabled {
        var p := profile.value;
        var newProfile := Profile(p.profile, p.role, StateDisabled, p.landline, p.mobilePhone,
                                  p.address, p.complementAddress, p.locality);
        var profiles, tokens := datastore.profiles, datastore.tokens;
        profiles := profiles - {target};               // txn.delete(oldProfileKey)
        if tokenToRm.Some? {
          tokens := tokens - {target};                 // txn.delete(tokenToRmKey)
        }
        profiles := profiles[target := newProfile];    // txn.add(newProfile)
        datastore.profiles, datastore.tokens := profiles, tokens;
        r := Ok;
      } else {
        r := Fail(Forbidden, AlreadyDisabled);
      }
    }
  }
}
