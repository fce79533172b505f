# Account and session core of IndividualApp, in Dafny

This project models the account-and-session state machine behind the two
JAX-RS resources of IndividualApp: `UserResource` (`/user`: register, delete,
modify profile, change role, change state, change password, read
attributes, disable) and `LoginResource` (`/sign`: login, logout), with the
role and state constants and the `validStateChange` policy of `UserData`.

The Datastore is modelled as three maps keyed by username: `User` (password
digest, email, creation timestamp), `Profile` (visibility, role, state and
five contact strings) and `Token` (username, id, role snapshot, creation and
expiration). A transaction is the endpoint's local copy of those maps: a
refusal returns without writing them (the rollback), a success assigns them
(the commit), so every `txn.delete` followed by `txn.add` becomes the
replacement of one whole record.

Layout, one module per file:

- `entities.dfy` (`Entities`): the records, the store value, the response
  (status class and error kind), and `Consistent`, the invariant between the
  maps: accounts and profiles have the same names; a token exists only for
  an account, is stored under the name it carries, and carries that
  profile's role.
- `user_data.dfy` (`UserData`): the role, state and visibility constants,
  the rank order U < GBO < GA < SU, and `ValidStateChange`.
- `auth.dfy` (`Auth`): the token gate (stored token present, presented token
  accepts its expiration, ids equal), the digest type and the validity test.
- `datastore.dfy` (`Datastore`): the class holding the three maps. Each
  resource has its own Datastore client; in the model one object stands for
  the store that both resources' clients address.
- `user_resource.dfy` (`UserResource`): the inline permission rules, the
  record builders, each endpoint as a function from the store to its
  outcome, and the class `UserResource` whose methods do the reads, checks
  and writes in the source's order and are proved equal to those functions.
- `login_resource.dfy` (`LoginResource`): the same for login and logout.
- `service.dfy` (`Service`): every request of both resources, `Run` over a
  sequence of requests, and lemmas relating requests: every reachable store
  is consistent, registration then login, logout then login, disable ends a
  session, state change keeps it, role change refreshes it, deleting twice,
  and which role (stored or presented) each endpoint trusts.

Behaviour kept as the code has it, quirks included:

- Registration refuses mismatched or short passwords with 409 and a taken
  name with 400; the length test is `< 6`, so six characters are accepted
  although the message asks for more than six.
- Password-change refusals, including null fields and a weak password, are
  all 403.
- A state change replaces only the target's profile and leaves the target's
  token in place, even when the new state is "DISABLED"; of the two, only
  `disableUser` deletes the token. The new state is any string.
- State change and disable authorise with the role carried in the
  presented token; delete, role change and attribute read with the role of
  the stored token. The gate compares only ids and expiration, so a client
  holding a valid id may claim any role in those two endpoints
  (`Service.PresentedRoleIsTrusted`).
- Logout with no stored token dereferences null; the exception is caught
  and the answer is 500.
- Other null dereferences inside the `try` blocks are modelled as 500 too: a
  missing profile for an existing account, a null `role` in a role change
  of a "U", a null password at login, a missing account in a password
  change. Registration over an existing profile key makes the commit's
  insert fail, also 500. None of these happens in a consistent store except
  the null role and the null login password
  (`Service.BrokeOnlyOnNulls`).
- A role change of a user without a token succeeds and leaves the tokens
  alone; with a token it keeps the token's username, id, creation and
  expiration and sets the new role.
- Login refuses only the state "DISABLED"; any other state string logs in.
- `UserResource` imports `individualproject.util.UserData`; the `UserData`
  class in this code base is `firstwebapp.util.UserData`, and its
  `validStateChange` is the one modelled.

## Model

| member | source | states |
|---|---|---|
| UserData.Rank | IndividualApp/src/main/java/pt/unl/fct/di/apdc/firstwebapp/util/UserData.java:6-9 | the four role constants ordered U < GBO < GA < SU; U is the bottom and SU the top |
| UserData.ValidStateChange | IndividualApp/src/main/java/pt/unl/fct/di/apdc/firstwebapp/util/UserData.java:40-54 | holds iff both strings are roles and the target ranks strictly below the changer; false for changer "U", for target "SU", for unrecognised strings and for equal roles |
| UserData.ValidStateChangeTable | IndividualApp/src/main/java/pt/unl/fct/di/apdc/firstwebapp/util/UserData.java:41-53 | row by row: target U for GBO/GA/SU, target GBO for GA/SU, target GA only for SU, target SU never |
| UserData.ValidStateChangeIsStrictOrder | IndividualApp/src/main/java/pt/unl/fct/di/apdc/firstwebapp/util/UserData.java:40-54 | no role may change its own tier, and the relation is transitive |
| Auth.AdmitsReadsIdAndExpiration | IndividualApp/src/main/java/pt/unl/fct/di/apdc/individualproject/resources/UserResource.java:116 | the gate's verdict depends only on the stored token's id and expiration, not on its role, username or creation time |
| Auth.NoTokenNoSession | IndividualApp/src/main/java/pt/unl/fct/di/apdc/individualproject/resources/UserResource.java:116 | with no token stored under the presented name the gate refuses |
| Auth.LoggedIn | IndividualApp/src/main/java/pt/unl/fct/di/apdc/individualproject/resources/UserResource.java:116 | `Admits` applied to the token stored under the presented name: logged in iff a token is stored there, the presented token accepts its expiration and the ids are equal; in a consistent store the caller then has an account and a profile; the same gate is at UserResource.java:178, 237, 311, 370, 437 and 488, and LoginResource.java:108 is the same test without the null check |
| UserResource.MayDelete | IndividualApp/src/main/java/pt/unl/fct/di/apdc/individualproject/resources/UserResource.java:124-131 | allowed iff the stored role is a role and deleting oneself coincides with being "U": a "U" deletes only itself, GBO/GA/SU only others |
| UserResource.MayChangeRole | IndividualApp/src/main/java/pt/unl/fct/di/apdc/individualproject/resources/UserResource.java:244-245 | allowed iff the target is "U" and the new role ranks strictly above the target and strictly below the caller; never grants SU, never a lateral move |
| UserResource.MayReadAttributes | IndividualApp/src/main/java/pt/unl/fct/di/apdc/individualproject/resources/UserResource.java:445 | allowed iff the role ranks GBO or above |
| UserResource.MayDisable | IndividualApp/src/main/java/pt/unl/fct/di/apdc/individualproject/resources/UserResource.java:495 | allowed iff the role ranks GA or above, whoever the target; implies the right to read attributes |
| UserResource.Edited | IndividualApp/src/main/java/pt/unl/fct/di/apdc/individualproject/resources/UserResource.java:186-195 | the edited profile keeps role and state; each of the six editable fields is the request's value when given and the old one when null |
| UserResource.EditedLaws | IndividualApp/src/main/java/pt/unl/fct/di/apdc/individualproject/resources/UserResource.java:186-195 | an all-null edit changes nothing; applying an edit twice equals applying it once |
| UserResource.RegisterOutcome | IndividualApp/src/main/java/pt/unl/fct/di/apdc/individualproject/resources/UserResource.java:34-87 | a null field gives 400 before the store is read; then, in order, a mismatched confirmation gives 409, a password shorter than 6 gives 409, a taken name gives 400, and a profile left under a free name gives 500 (and only that case does); success iff non-null, passwords equal, length at least 6 and name free; success adds the digest-holding account and the default PRIVATE/U/ENABLED profile and no token; every failure leaves the store; consistency kept |
| UserResource.DeleteOutcome | IndividualApp/src/main/java/pt/unl/fct/di/apdc/individualproject/resources/UserResource.java:110-146 | only 403 failures, in order "not logged", "no such user", "no permission"; success iff logged in, target exists and MayDelete with the stored role; a non-"U" caller cannot delete itself; success removes exactly the target's account, profile and token; consistency kept |
| UserResource.ModifyInfoOutcome | IndividualApp/src/main/java/pt/unl/fct/di/apdc/individualproject/resources/UserResource.java:164-205 | "not logged", then "no such user" (403); 500 iff the caller's account has no profile; success iff logged in and the caller's account and profile exist; success replaces only the caller's profile by the edited one, accounts and tokens untouched; failure leaves the store |
| UserResource.ModifyRoleOutcome | IndividualApp/src/main/java/pt/unl/fct/di/apdc/individualproject/resources/UserResource.java:220-282 | "not logged", then "no such user" (403); 500 iff the target has no profile or is a "U" and the role is null; a non-"U" target or a refused promotion gives 403 "no permission"; success iff logged in, target exists with a profile, a role is given and MayChangeRole with the stored role; success is a promotion changing only the profile's role, and refreshes the target's token with the new role when one exists, keeping the token keys; failure leaves the store; consistency kept |
| UserResource.ModifyStateOutcome | IndividualApp/src/main/java/pt/unl/fct/di/apdc/individualproject/resources/UserResource.java:297-344 | "not logged", "no such user", "no permission" (403); 500 iff the target has no profile; success iff logged in, target exists with a profile and ValidStateChange(presented role, target role); success sets only that profile's state, accounts and tokens untouched; failure leaves the store |
| UserResource.ModifyPasswordOutcome | IndividualApp/src/main/java/pt/unl/fct/di/apdc/individualproject/resources/UserResource.java:361-408 | in order, all 403: not logged, null passwords, old digest wrong, new password shorter than 6, confirmation different; 500 iff the caller's account is gone; success iff all those checks pass; success replaces the caller's digest keeping email and creation time, profiles and tokens untouched; failure leaves the store |
| UserResource.AttributeResponse | IndividualApp/src/main/java/pt/unl/fct/di/apdc/individualproject/resources/UserResource.java:424-455 | returns the target's stored account and profile iff logged in, target exists and the stored role may read; otherwise 403 "not logged", "no such user" or "no permission", in that order |
| UserResource.DisableOutcome | IndividualApp/src/main/java/pt/unl/fct/di/apdc/individualproject/resources/UserResource.java:477-528 | in order, all 403: not logged, no such user, presented role not GA/SU, target not ENABLED; 500 iff the target has no profile; success iff logged in, target exists, presented role GA or SU and target profile ENABLED; success sets DISABLED with all other fields copied and removes the target's token; failure leaves the store; consistency kept |
| UserResource.UserResource.RegistUser | IndividualApp/src/main/java/pt/unl/fct/di/apdc/individualproject/resources/UserResource.java:33-97 | the response and new store are those of RegisterOutcome; a valid store stays valid |
| UserResource.UserResource.DeleteUser | IndividualApp/src/main/java/pt/unl/fct/di/apdc/individualproject/resources/UserResource.java:103-157 | the response and new store are those of DeleteOutcome; a valid store stays valid |
| UserResource.UserResource.ModifyUserInfo | IndividualApp/src/main/java/pt/unl/fct/di/apdc/individualproject/resources/UserResource.java:162-213 | the response and new store are those of ModifyInfoOutcome; a valid store stays valid |
| UserResource.UserResource.ModifyUserRole | IndividualApp/src/main/java/pt/unl/fct/di/apdc/individualproject/resources/UserResource.java:218-290 | the response and new store are those of ModifyRoleOutcome; a valid store stays valid |
| UserResource.UserResource.ModifyUserState | IndividualApp/src/main/java/pt/unl/fct/di/apdc/individualproject/resources/UserResource.java:295-354 | the response and new store are those of ModifyStateOutcome; a valid store stays valid |
| UserResource.UserResource.ModifyUserPassword | IndividualApp/src/main/java/pt/unl/fct/di/apdc/individualproject/resources/UserResource.java:359-418 | the response and new store are those of ModifyPasswordOutcome; a valid store stays valid |
| UserResource.UserResource.GetUserAttribute | IndividualApp/src/main/java/pt/unl/fct/di/apdc/individualproject/resources/UserResource.java:423-464 | the response is AttributeResponse of the current store, and no record changes (no modifies clause) |
| UserResource.UserResource.DisableUser | IndividualApp/src/main/java/pt/unl/fct/di/apdc/individualproject/resources/UserResource.java:469-537 | the response and new store are those of DisableOutcome; a valid store stays valid |
| LoginResource.LoginOutcome | IndividualApp/src/main/java/pt/unl/fct/di/apdc/individualproject/resources/LoginResource.java:49-87 | an existing token refuses with 403 whatever the password; then, in order, no account, wrong digest, DISABLED profile, all 403; 500 iff the password is null or the account has no profile; token issued iff no token, account exists, digest matches and profile not DISABLED; success adds exactly one token under the name, with the profile's current role, accounts and profiles untouched; failure leaves the store; consistency kept |
| LoginResource.LogoutOutcome | IndividualApp/src/main/java/pt/unl/fct/di/apdc/individualproject/resources/LoginResource.java:106-120 | no stored token iff 500; a stored token the gate refuses gives 403 "not logged"; success iff the gate admits the presented token; success removes only the caller's token; failure leaves the store |
| LoginResource.LoginResource.Login | IndividualApp/src/main/java/pt/unl/fct/di/apdc/individualproject/resources/LoginResource.java:38-96 | the response and new store are those of LoginOutcome; a valid store stays valid |
| LoginResource.LoginResource.Logout | IndividualApp/src/main/java/pt/unl/fct/di/apdc/individualproject/resources/LoginResource.java:100-125 | the response and new store are those of LogoutOutcome; a valid store stays valid |
| Service.Step | IndividualApp/src/main/java/pt/unl/fct/di/apdc/individualproject/resources/UserResource.java:23-539 | any request of either resource: a refusal leaves the store, and a consistent store stays consistent |
| Service.Run | IndividualApp/src/main/java/pt/unl/fct/di/apdc/individualproject/resources/LoginResource.java:23-127 | any sequence of requests keeps a consistent store consistent |
| Service.ReachableStoresAreConsistent | IndividualApp/src/main/java/pt/unl/fct/di/apdc/individualproject/resources/UserResource.java:72-85 | every store reachable from the empty one has equal account and profile names, tokens only for accounts, under their own names, with the profile's role |
| Service.BrokeOnlyOnNulls | IndividualApp/src/main/java/pt/unl/fct/di/apdc/individualproject/resources/UserResource.java:244-245 | in a consistent store a 500 comes only from a role change with a null role, a login with a null password or a logout with no stored token |
| Service.RefusalIsRepeatable | IndividualApp/src/main/java/pt/unl/fct/di/apdc/individualproject/resources/UserResource.java:143-146 | serving a refused request again gives the same response and store |
| Service.RegisteredUserCanLogIn | IndividualApp/src/main/java/pt/unl/fct/di/apdc/individualproject/resources/LoginResource.java:53-85 | in a consistent store, a successful registration followed by login with the same password issues a token with role "U" |
| Service.LogoutUnblocksLogin | IndividualApp/src/main/java/pt/unl/fct/di/apdc/individualproject/resources/LoginResource.java:109 | after a successful logout the name has no token and login is not refused as already logged in |
| Service.DisableEndsSession | IndividualApp/src/main/java/pt/unl/fct/di/apdc/individualproject/resources/UserResource.java:513-514 | after disabling, no token presented under the target's name passes the gate, so profile edit and delete answer "not logged" |
| Service.StateChangeKeepsSessions | IndividualApp/src/main/java/pt/unl/fct/di/apdc/individualproject/resources/UserResource.java:331-333 | after a state change every gate verdict is as before |
| Service.RoleChangeRefreshesSession | IndividualApp/src/main/java/pt/unl/fct/di/apdc/individualproject/resources/UserResource.java:259-269 | after a role change every gate verdict is as before and the target's token, if any, carries the new role |
| Service.DeleteTwiceIsRefused | IndividualApp/src/main/java/pt/unl/fct/di/apdc/individualproject/resources/UserResource.java:116-121 | repeating a successful delete is refused with 403, "not logged" for self-deletion and "no such user" otherwise, and changes nothing |
| Service.StateChangeIgnoresStoredRole | IndividualApp/src/main/java/pt/unl/fct/di/apdc/individualproject/resources/UserResource.java:319 | the state-change response does not depend on the stored token's role |
| Service.DisableIgnoresStoredRole | IndividualApp/src/main/java/pt/unl/fct/di/apdc/individualproject/resources/UserResource.java:495 | the disable response does not depend on the stored token's role |
| Service.DeleteReadsStoredRole | IndividualApp/src/main/java/pt/unl/fct/di/apdc/individualproject/resources/UserResource.java:123 | a caller stored as "U" cannot delete another account even when its presented token claims "SU" |
| Service.PresentedRoleIsTrusted | IndividualApp/src/main/java/pt/unl/fct/di/apdc/individualproject/resources/UserResource.java:495 | a "U" presenting its own id with role "SU" disables a GA and may change its state |
| Service.SixCharacterPasswordAccepted | IndividualApp/src/main/java/pt/unl/fct/di/apdc/individualproject/resources/UserResource.java:53 | registration with a six-character password and a free name succeeds |
| Service.AliceScenario | IndividualApp/src/main/java/pt/unl/fct/di/apdc/individualproject/resources/LoginResource.java:53-67 | register, login, a wrong-password login refused as already logged in, logout, then the wrong password refused as incorrect when the digests differ |

## Left out

- HTTP, JAX-RS annotations, JSON (Gson) and the message texts: a response
  is a status class and an error kind; the attribute read returns the two
  records instead of their JSON.
- The Datastore client, its keys (kinds, ancestor paths) and transaction
  isolation: the store is three maps keyed by username, and requests are
  served one at a time with no concurrency.
- Storage failures other than the ones listed above (network errors,
  contention, a failed commit in general) are not modelled; they would all
  end in 500 with the store unchanged.
- SHA-512: the digest is an arbitrary deterministic function given to the
  resources; nothing is assumed about collisions.
- `AuthToken` is not part of this model: its random id, creation and
  expiration times are parameters of login, and `isValid` is a parameter
  of every gated request.
- The clock and the formatted creation timestamp of registration are
  parameters.
- Logging.
- A null target username, a null `data.at` or null fields inside it, a
  null `data.state`, and a null `data.username` at login (whose keys are
  built before the `try`): these are non-null strings in the model; the
  exceptions they would raise (some outside the `try` blocks) are not
  modelled.
- Password length is the number of characters of the model string; Java
  counts UTF-16 code units, which differ for characters outside the Basic
  Multilingual Plane.
- `LoginData` has no logic; its fields are the parameters of `Login` and
  `Logout`.
