/** The role, state and visibility constants and the state-change policy of
    the request holder `UserData`. */
module UserData {

  const RoleUser := "U"
  const RoleBackoffice := "GBO"
  const RoleBackend := "GA"
  const RoleSuper := "SU"

  const StateEnabled := "ENABLED"
  const StateDisabled := "DISABLED"

  const ProfilePublic := "PUBLIC"
  const ProfilePrivate := "PRIVATE"

  /** One of the four role constants. */
  predicate IsRole(r: string) {
    r == RoleUser || r == RoleBackoffice || r == RoleBackend || r == RoleSuper
  }

  /** The privilege order U < GBO < GA < SU, as a number. */
  function Rank(r: string): (n: nat)
    requires IsRole(r)
    ensures n <= 3
    ensures n == 0 <==> r == RoleUser
    ensures n == 3 <==> r == RoleSuper
  {
    if r == RoleUser then 0
    else if r == RoleBackoffice then 1
    else if r == RoleBackend then 2
    else 3
  }

  /** Whether a `changer` may change the state of an account whose role is
      `toChange`: exactly when both are roles and the target ranks strictly
      below the changer. */
  function ValidStateChange(changer: string, toChange: string): (b: bool)
    ensures b <==> IsRole(changer) && IsRole(toChange) && Rank(toChange) < Rank(changer)
    ensures changer == RoleUser ==> !b
    ensures toChange == RoleSuper ==> !b
    ensures b ==> changer != toChange
  {
    if changer == RoleUser then false
    else if toChange == RoleUser && (changer == RoleBackoffice || changer == RoleBackend || changer == RoleSuper) then true
    else if toChange == RoleBackoffice && (changer == RoleBackend || changer == RoleSuper) then true
    else if toChange == RoleBackend && changer == RoleSuper then true
    else false
  }

  /** The rows of the policy, one per role constant of the target. */
  lemma ValidStateChangeTable(changer: string)
    ensures ValidStateChange(changer, RoleUser) <==> changer in {RoleBackoffice, RoleBackend, RoleSuper}
    ensures ValidStateChange(changer, RoleBackoffice) <==> changer in {RoleBackend, RoleSuper}
    ensures ValidStateChange(changer, RoleBackend) <==> changer == RoleSuper
    ensures !ValidStateChange(changer, RoleSuper)
  {
  }

  /** The relation is a strict order on roles: irreflexive and transitive. */
  lemma ValidStateChangeIsStrictOrder(a: string, b: string, c: string)
    ensures !ValidStateChange(a, a)
    ensures ValidStateChange(a, b) && ValidStateChange(b, c) ==> ValidStateChange(a, c)
  {
  }
}
