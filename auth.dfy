/** The session-token gate every endpoint but registration and login opens
    with, and the digest the passwords are stored as. The session token's own
    class `AuthToken` is not part of this model: its expiry test is a
    parameter. */
module Auth {
  import opened Entities

  /** `AuthToken.isValid`: whether the presented token accepts the stored
      token's expiration. It may depend on the clock, so every request gets
      its own. */
  type Validity = (Token, int) -> bool

  /** The password digest (`DigestUtils.sha512Hex`): an arbitrary but
      deterministic function. */
  type Hash = string -> string

  /** The gate: a stored token exists for the presented token's name, the
      presented token accepts the stored expiration, and the ids agree. */
  predicate Admits(stored: Option<Token>, at: Token, isValid: Validity) {
    stored.Some? && isValid(at, stored.value.expirationData) && at.id == stored.value.id
  }

  /** The gate as every endpoint applies it: against the token stored under
      the presented token's username. */
  predicate LoggedIn(s: Store, at: Token, isValid: Validity): (b: bool)
    ensures b <==>
      at.username in s.tokens && isValid(at, s.tokens[at.username].expirationData) && at.id == s.tokens[at.username].id
    // in a consistent store a logged-in caller has an account and a profile,
    // and the stored token names it
    ensures b && Consistent(s) ==>
      at.username in s.users && at.username in s.profiles && s.tokens[at.username].username == at.username
  {
    Admits(Lookup(s.tokens, at.username), at, isValid)
  }

  /** The gate reads only the stored id and expiration: replacing the stored
      token by one with the same id and expiration, whatever its role,
      username or creation time, leaves the verdict as it was. */
  lemma AdmitsReadsIdAndExpiration(t: Token, t': Token, at: Token, isValid: Validity)
    requires t'.id == t.id && t'.expirationData == t.expirationData
    ensures Admits(Some(t'), at, isValid) == Admits(Some(t), at, isValid)
  {
  }

  /** No stored token, no session. */
  lemma NoTokenNoSession(s: Store, at: Token, isValid: Validity)
    requires at.username !in s.tokens
    ensures !LoggedIn(s, at, isValid)
  {
  }
}
