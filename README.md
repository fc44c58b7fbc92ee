# User account lifecycle of the HR application's `UserService`

This project models the account lifecycle of the HR application's user service
(`src/main/java/com/ajwalker/service/UserService.java`) and proves its rules.

A user registers and is stored as `PENDING`, and a verification mail goes out.
`updateUserStateToInReView` moves the account to `IN_REVIEW`; its caller (presumably
the e-mail verification step) is not part of this model. A manager then accepts it, which
makes it `INACTIVE`, or denies it, which makes it `DENIED`. Login checks the password
first. It then answers with the state's name for a waiting account, refuses a denied
one, and issues a session token for an active or inactive one. Two listings show the
customers (`ACTIVE` or `INACTIVE`) and the users on wait (`PENDING` or `IN_REVIEW`).

Layout:

- `wrappers.dfy`: `Option` and `Result`.
- `ascii.dfy`: `equalsIgnoreCase` for ASCII letters, with Java's per-character test.
  It is proved equal to comparing the upper-cased strings.
- `domain.dfy`: the account states and their names, the user record, the failures, the
  login reply, a sent mail, and the service's collaborators.
- `store.dfy`: the user repository as a `map<int, User>` from generated id to user. It
  holds the store invariant (ids match their keys and lie below the next id, e-mails
  are unique), the lookups, and the two updates the service makes (set one user's
  state, add a new pending user), with their frame and invariant lemmas.
- `service.dfy`: the read-only operations as functions of the store (login, the two
  listings, the reading of the manager's answer). The updating operations are methods
  of class `UserService`, which owns the store, the id counter and a ghost log of sent
  mails. Each method's `ensures` gives the new store as a function of the old one.

The collaborators are parameters, held in a `Collaborators` value that the service is
constructed with. These are the password check `matches(raw, stored)`, the token issuer
`createToken(id)`, the verification-code generator `generateCode(id)`, and the mail
template and link prefix. Mail sending is recorded in the ghost field `mails`.

Choices where the code leaves something open:

- An e-mail no user has makes `doLogin` call `Optional.get()` on an empty lookup. That
  is a generic runtime failure, not a domain error. `Login` models it as a separate
  outcome, `NoSuchElement`, and does not use a precondition. A cleaner design would
  answer `INVALID_EMAIL_OR_PASSWORD` here so that "unknown e-mail" and "wrong
  password" look alike. The model keeps the code's behaviour.
- Accepting a user sets `INACTIVE`, not `ACTIVE`, exactly as the code does.
- E-mail uniqueness is taken as a property of the store. The user entity and its
  constraints are not part of this model. `Register` on a stored e-mail therefore ends
  in `DuplicateEmail` and changes nothing. The failure stands for the store refusing
  the save at line 34, before any code is generated or mail sent.

## Model

| member | source | states |
|---|---|---|
| Ascii.EqualsIgnoreCase | src/main/java/com/ajwalker/service/UserService.java:89 | `equalsIgnoreCase`: strings that match ignoring case have the same length |
| Ascii.EqualsIgnoreCasePointwise | src/main/java/com/ajwalker/service/UserService.java:89 | `equalsIgnoreCase` holds exactly when the strings have the same length and agree at every position under Java's per-character test (both directions, by induction) |
| Ascii.CharEqualsIgnoreCaseIsUpperEquality | src/main/java/com/ajwalker/service/UserService.java:89 | the per-character test of `equalsIgnoreCase` holds exactly when both characters upper-case alike |
| Ascii.EqualsIgnoreCaseIsUpperEquality | src/main/java/com/ajwalker/service/UserService.java:89-94 | two strings match ignoring case exactly when their upper-cased forms are equal (both directions, by induction) |
| Ascii.EqualsIgnoreCaseEquivalence | src/main/java/com/ajwalker/service/UserService.java:89-94 | matching ignoring case is reflexive, symmetric and transitive |
| Domain.StateNameIdentifiesState | src/main/java/com/ajwalker/service/UserService.java:49-54 | two states have the same `toString()` label exactly when they are the same state, so a login label names its state |
| Store.FindById | src/main/java/com/ajwalker/service/UserService.java:62-64 | `findUserById` finds a user exactly when the id is stored, and finds the stored one |
| Store.FindByIdAgreesWithId | src/main/java/com/ajwalker/service/UserService.java:84-88 | under the store invariant, the user found for an id carries that id |
| Store.FindByEmail | src/main/java/com/ajwalker/service/UserService.java:43 | the lookup by e-mail is empty exactly when no user has that e-mail, and otherwise yields a stored user with it |
| Store.FindByEmailFinds | src/main/java/com/ajwalker/service/UserService.java:43-45 | with unique e-mails the lookup yields precisely the user stored with that e-mail |
| Store.FindAllByState | src/main/java/com/ajwalker/service/UserService.java:75-81 | the state-filtered query yields stored users only, each in one of the asked states, and misses none of them |
| Store.SetState | src/main/java/com/ajwalker/service/UserService.java:69-71 | `setUserState` followed by `save`: only the target user's state changes; ids, its other fields and every other user are kept; an absent id changes nothing |
| Store.SetStateIdempotent | src/main/java/com/ajwalker/service/UserService.java:66-73 | setting the same state twice equals setting it once |
| Store.SetStatePreservesInvariant | src/main/java/com/ajwalker/service/UserService.java:97-104 | a state change keeps ids consistent and e-mails unique |
| Store.AddPending | src/main/java/com/ajwalker/service/UserService.java:32-34 | saving the new user adds exactly its id to the store, stores it as `PENDING` with the given e-mail and password, and keeps every other user |
| Store.AddPendingAddsOneUser | src/main/java/com/ajwalker/service/UserService.java:31-34 | registering an unused e-mail adds exactly one `PENDING` user under an id not yet stored, keeps every stored user and keeps the invariant for the next id |
| Service.Login | src/main/java/com/ajwalker/service/UserService.java:42-60 | login fails with `NoSuchElement` exactly when no user has the e-mail |
| Service.LoginRejectsWrongPassword | src/main/java/com/ajwalker/service/UserService.java:45-47 | a non-matching password fails with `INVALID_EMAIL_OR_PASSWORD` whatever the state: credentials are checked first |
| Service.LoginLabelsWaitingUser | src/main/java/com/ajwalker/service/UserService.java:49-54 | with matching credentials a `PENDING` user gets "PENDING" and an `IN_REVIEW` user gets "IN_REVIEW", and no token |
| Service.LoginRejectsDeniedUser | src/main/java/com/ajwalker/service/UserService.java:55-57 | with matching credentials a `DENIED` user fails with `DENIED_USER` |
| Service.LoginIssuesTokenExactlyForCustomers | src/main/java/com/ajwalker/service/UserService.java:55-59 | a token is issued exactly when the password matches and the user is a customer, and it is the token for that user's id |
| Service.Customers | src/main/java/com/ajwalker/service/UserService.java:75-77 | `getAllCustomers` holds exactly the stored users in `ACTIVE` or `INACTIVE` |
| Service.UsersOnWait | src/main/java/com/ajwalker/service/UserService.java:79-81 | `getAllUserOnWait` holds exactly the stored users in `PENDING` or `IN_REVIEW` |
| Service.ListingsPartitionUndenied | src/main/java/com/ajwalker/service/UserService.java:75-81 | the two listings never overlap, hold no `DENIED` user, and together hold every user that is not denied |
| Service.ParseAnswer | src/main/java/com/ajwalker/service/UserService.java:89-94 | the answer means accept exactly when it equals "ACCEPT" ignoring case, and deny exactly when it equals "DENY" ignoring case |
| Service.DecidedState | src/main/java/com/ajwalker/service/UserService.java:97-104 | an accepted user lands in `INACTIVE` (a customer state, not `ACTIVE`); a denied one lands in `DENIED` |
| Service.ParseAnswerIgnoresCase | src/main/java/com/ajwalker/service/UserService.java:89-94 | an answer is recognised exactly when it upper-cases to "ACCEPT" or "DENY" |
| Service.ParseAnswerExamples | src/main/java/com/ajwalker/service/UserService.java:89-94 | worked examples only, not a general property: "accept", "AcCePt" and "deny" are recognised; "ACCEPTED" and "no" are not |
| Service.UserService.constructor | src/main/java/com/ajwalker/service/UserService.java:22-29 | a service starts with its collaborators and a repository that may already hold users (any store satisfying the invariant), and an empty mail log |
| Service.UserService.Register | src/main/java/com/ajwalker/service/UserService.java:31-39 | stores one new `PENDING` user under a fresh id, keeps all others, answers true, and logs exactly one mail to that user's address with the verification template and the link prefix followed by the code for its id |
| Service.UserService.UpdateUserStateToInReview | src/main/java/com/ajwalker/service/UserService.java:66-73 | a stored user moves to `IN_REVIEW`, nothing else changes, and an unknown id leaves the store as it was |
| Service.UserService.UpdateUserToInactive | src/main/java/com/ajwalker/service/UserService.java:97-100 | saves the looked-up user as `INACTIVE` and returns the saved user |
| Service.UserService.UpdateUserToDenied | src/main/java/com/ajwalker/service/UserService.java:101-104 | saves the looked-up user as `DENIED` and returns the saved user |
| Service.UserService.UserAuthorisation | src/main/java/com/ajwalker/service/UserService.java:83-96 | an unknown id fails with `NOTFOUND_USER`; "ACCEPT"/"DENY" in any case set `INACTIVE`/`DENIED` on that user only and return it; any other answer returns the user and changes nothing |

## Left out

- `ManagerController` is left out. It does HTTP routing and response building and
  passes calls through to a manager service that is not part of this model. Its one
  check is a call to the token verifier.
- Token creation and verification (JSON Web Tokens, RFC 7519) are left out.
  `createToken` is an opaque function of the user id. The claims that a token is
  non-empty and decodes back to the id are not stated.
- The password-hash algorithm is left out. `matches` is an arbitrary predicate.
- Mail delivery, and how verification codes are made and stored, are left out.
  `generateCode` is a function of the id, so two codes for the same id are taken to be
  equal. The mail is a ghost log entry.
- Register: a failure of the code service or the mail service after the save is not
  modelled. The source has no rollback, so such a failure would leave the user stored
  as `PENDING` without a mail.
- The `UserMapper` mapping from the request object is left out. `Register` takes the
  e-mail and the password the mapper stores. Profile fields are not part of `User`.
- Persistence, transactions and Spring wiring are left out. The listings are sets,
  because the order the database returns them in is not specified.
- Concurrent calls and races on the store are left out. The source takes no locks.
- `EqualsIgnoreCase` folds ASCII letters only. Java also folds non-ASCII letters whose
  case mapping lands on ASCII, such as the dotless ı or the Kelvin sign. None of them
  maps to a letter of "ACCEPT" or "DENY".
- Null arguments (a null id, answer or e-mail) and the exceptions they would raise are
  not modelled. Strings and ids are plain values here.
