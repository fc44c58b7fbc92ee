/** The user service: registration, login, the manager's decision on a new account,
    moving an account to review, and the two state-filtered listings. The read-only
    operations are functions of the store; the updating ones are methods of
    `UserService`, which owns the store, the id counter and the log of sent mails. */
module Service {
  import opened Wrappers
  import opened Ascii
  import opened Domain
  import opened Store

  /* ---------- Login ---------- */

  /** `doLogin`: look the user up by e-mail, check the password, then answer by state.
      An unknown e-mail reaches `Optional.get()` on an empty lookup: `NoSuchElement`. */
  function Login(users: Users, env: Collaborators, email: string, password: string): (r: Result<LoginReply, Error>)
    requires UniqueEmails(users)
    ensures r == Failure(NoSuchElement) <==> !EmailTaken(users, email)
  {
    match FindByEmail(users, email)
    case None => Failure(NoSuchElement)
    case Some(u) =>
      if !env.matches(password, u.password) then Failure(InvalidEmailOrPassword)
      else if u.state == Pending then Success(StateLabel(StateName(Pending)))
      else if u.state == InReview then Success(StateLabel(StateName(InReview)))
      else if u.state == Denied then Failure(DeniedUser)
      else Success(Token(env.createToken(u.id)))
  }

  /** A password that does not match fails with `InvalidEmailOrPassword`, whatever the
      user's state: the credentials are checked before the state is looked at. */
  lemma LoginRejectsWrongPassword(users: Users, env: Collaborators, email: string, password: string, id: int)
    requires UniqueEmails(users)
    requires id in users && users[id].email == email
    requires !env.matches(password, users[id].password)
    ensures Login(users, env, email, password) == Failure(InvalidEmailOrPassword)
  {
  }

  /** With matching credentials a user still waiting gets the literal name of its state,
      and no token. */
  lemma LoginLabelsWaitingUser(users: Users, env: Collaborators, email: string, password: string, id: int)
    requires UniqueEmails(users)
    requires id in users && users[id].email == email
    requires env.matches(password, users[id].password)
    ensures users[id].state == Pending ==> Login(users, env, email, password) == Success(StateLabel("PENDING"))
    ensures users[id].state == InReview ==> Login(users, env, email, password) == Success(StateLabel("IN_REVIEW"))
  {
  }

  /** With matching credentials a denied user fails with `DeniedUser`. */
  lemma LoginRejectsDeniedUser(users: Users, env: Collaborators, email: string, password: string, id: int)
    requires UniqueEmails(users)
    requires id in users && users[id].email == email && users[id].state == Denied
    requires env.matches(password, users[id].password)
    ensures Login(users, env, email, password) == Failure(DeniedUser)
  {
  }

  /** Login issues a token exactly when the password matches and the user is a customer
      (active or inactive), and the token is the one issued for that user's id. */
  lemma LoginIssuesTokenExactlyForCustomers(users: Users, env: Collaborators, email: string, password: string, id: int)
    requires UniqueEmails(users)
    requires id in users && users[id].email == email
    ensures Login(users, env, email, password).Success? && Login(users, env, email, password).value.Token?
            <==> env.matches(password, users[id].password) && users[id] in Customers(users)
    ensures Login(users, env, email, password).Success? && Login(users, env, email, password).value.Token?
            ==> Login(users, env, email, password).value.token == env.createToken(users[id].id)
  {
  }

  /* ---------- Listings ---------- */

  predicate IsCustomerState(s: UserState)
  {
    s == Active || s == Inactive
  }

  predicate IsWaitingState(s: UserState)
  {
    s == Pending || s == InReview
  }

  /** `getAllCustomers`: the users whose state is `Active` or `Inactive`. */
  function Customers(users: Users): (r: set<User>)
    ensures forall u :: u in r <==> u in users.Values && IsCustomerState(u.state)
  {
    FindAllByState(users, {Active, Inactive})
  }

  /** `getAllUserOnWait`: the users whose state is `Pending` or `InReview`. */
  function UsersOnWait(users: Users): (r: set<User>)
    ensures forall u :: u in r <==> u in users.Values && IsWaitingState(u.state)
  {
    FindAllByState(users, {Pending, InReview})
  }

  /** The two listings never overlap, neither holds a denied user, and together they
      hold every stored user that is not denied. */
  lemma ListingsPartitionUndenied(users: Users)
    ensures Customers(users) * UsersOnWait(users) == {}
    ensures forall u :: u in Customers(users) + UsersOnWait(users) ==> u.state != Denied
    ensures Customers(users) + UsersOnWait(users) == set u | u in users.Values && u.state != Denied
  {
  }

  /* ---------- The manager's answer ---------- */

  /** The two answers `EUserAuthorisation` names. */
  datatype Decision = Accept | Deny

  /** The answer compared, ignoring case, with "ACCEPT" and then with "DENY";
      anything else is no decision. */
  function ParseAnswer(answer: string): (d: Option<Decision>)
    ensures d == Some(Accept) <==> EqualsIgnoreCase(answer, "ACCEPT")
    ensures d == Some(Deny) <==> EqualsIgnoreCase(answer, "DENY")
  {
    if EqualsIgnoreCase(answer, "ACCEPT") then Some(Accept)
    else if EqualsIgnoreCase(answer, "DENY") then Some(Deny)
    else None
  }

  /** The state a decision leads to: an accepted user becomes `Inactive`, a refused one
      `Denied`. */
  function DecidedState(d: Decision): (s: UserState)
    ensures s != Active && s != Pending && s != InReview
    ensures d == Accept <==> IsCustomerState(s)
  {
    match d
    case Accept => Inactive
    case Deny => Denied
  }

  /** Every spelling of the two answers is recognised, and nothing longer or shorter. */
  lemma ParseAnswerIgnoresCase(answer: string)
    ensures ParseAnswer(answer) == Some(Accept) <==> Upper(answer) == "ACCEPT"
    ensures ParseAnswer(answer) == Some(Deny) <==> Upper(answer) == "DENY"
  {
    EqualsIgnoreCaseIsUpperEquality(answer, "ACCEPT");
    EqualsIgnoreCaseIsUpperEquality(answer, "DENY");
    assert Upper("ACCEPT") == "ACCEPT";
    assert Upper("DENY") == "DENY";
  }

  /** A few answers as a manager might type them. */
  lemma ParseAnswerExamples()
    ensures ParseAnswer("accept") == Some(Accept)
    ensures ParseAnswer("AcCePt") == Some(Accept)
    ensures ParseAnswer("deny") == Some(Deny)
    ensures ParseAnswer("ACCEPTED") == None
    ensures ParseAnswer("no") == None
  {
  }

  /* ---------- The service object ---------- */

  class UserService {
    const env: Collaborators
    var users: Users
    var nextId: int
    ghost var mails: seq<Mail>

    ghost predicate Valid()
      reads this
    {
      StoreInvariant(users, nextId)
    }

    /** The service is built on a repository that may already hold users. */
    constructor (env: Collaborators, users: Users, nextId: int)
      requires StoreInvariant(users, nextId)
      ensures Valid()
      ensures this.env == env && this.users == users && this.nextId == nextId && mails == []
    {
      this.env := env;
      this.users := users;
      this.nextId := nextId;
      mails := [];
    }

    /** `register`: store a new `Pending` user under a fresh id, then mail the
        verification link for that id to the user's address, and answer `true`.
        The store refuses a second user with an e-mail already stored; nothing is
        saved or sent then. */
    method Register(email: string, password: string) returns (r: Result<bool, Error>)
      requires Valid()
      modifies this
      ensures Valid()
      ensures EmailTaken(old(users), email) ==>
        r == Failure(DuplicateEmail) && users == old(users) && nextId == old(nextId) && mails == old(mails)
      ensures !EmailTaken(old(users), email) ==>
        r == Success(true)
        && old(nextId) !in old(users)
        && users == AddPending(old(users), old(nextId), email, password)
        && users[old(nextId)].state == Pending
        && nextId == old(nextId) + 1
        && mails == old(mails) + [Mail(users[old(nextId)].email, env.verificationTemplate,
                                       env.verificationLink + env.generateCode(old(nextId)))]
    {
      if EmailTaken(users, email) {
        return Failure(DuplicateEmail);
      }
      AddPendingAddsOneUser(users, nextId, email, password);
      var id := nextId;
      users := AddPending(users, id, email, password);
      nextId := nextId + 1;
      var authCode := env.generateCode(id);
      var verificationLink := env.verificationLink + authCode;
      mails := mails + [Mail(users[id].email, env.verificationTemplate, verificationLink)];
      return Success(true);
    }

    /** `updateUserStateToInReView`: a stored user moves to `InReview`; an unknown id
        changes nothing. */
    method UpdateUserStateToInReview(userId: int)
      requires Valid()
      modifies this
      ensures Valid()
      ensures users == SetState(old(users), userId, InReview)
      ensures nextId == old(nextId) && mails == old(mails)
    {
      SetStatePreservesInvariant(users, nextId, userId, InReview);
      var found := FindById(users, userId);
      if found.Some? {
        users := users[userId := found.value.(state := InReview)];
      }
    }

    /** `updateUserToInActive`: save the user, which the caller looked up, as `Inactive`. */
    method UpdateUserToInactive(user: User) returns (saved: User)
      requires Valid()
      requires user.id in users && users[user.id] == user
      modifies this
      ensures Valid()
      ensures users == SetState(old(users), user.id, Inactive)
      ensures saved == user.(state := Inactive) && saved == users[user.id]
      ensures nextId == old(nextId) && mails == old(mails)
    {
      SetStatePreservesInvariant(users, nextId, user.id, Inactive);
      saved := user.(state := Inactive);
      users := users[saved.id := saved];
    }

    /** `updateUserToDenied`: save the user, which the caller looked up, as `Denied`. */
    method UpdateUserToDenied(user: User) returns (saved: User)
      requires Valid()
      requires user.id in users && users[user.id] == user
      modifies this
      ensures Valid()
      ensures users == SetState(old(users), user.id, Denied)
      ensures saved == user.(state := Denied) && saved == users[user.id]
      ensures nextId == old(nextId) && mails == old(mails)
    {
      SetStatePreservesInvariant(users, nextId, user.id, Denied);
      saved := user.(state := Denied);
      users := users[saved.id := saved];
    }

    /** `userAuthorisation`: an unknown id fails with `NotFoundUser`; an answer that
        reads "ACCEPT" or "DENY" ignoring case moves the user to `Inactive` or `Denied`;
        any other answer returns the user unchanged. Only that user's state ever changes. */
    method UserAuthorisation(userId: int, answer: string) returns (r: Result<User, Error>)
      requires Valid()
      modifies this
      ensures Valid()
      ensures nextId == old(nextId) && mails == old(mails)
      ensures userId !in old(users) ==> r == Failure(NotFoundUser) && users == old(users)
      ensures userId in old(users) && ParseAnswer(answer).None? ==>
        r == Success(old(users)[userId]) && users == old(users)
      ensures userId in old(users) && ParseAnswer(answer).Some? ==>
        users == SetState(old(users), userId, DecidedState(ParseAnswer(answer).value))
        && r == Success(users[userId])
    {
      var found := FindById(users, userId);
      if found.None? {
        return Failure(NotFoundUser);
      }
      var user := found.value;
      FindByIdAgreesWithId(users, nextId, userId);
      if EqualsIgnoreCase(answer, "ACCEPT") {
        var saved := UpdateUserToInactive(user);
        return Success(saved);
      }
      if EqualsIgnoreCase(answer, "DENY") {
        var saved := UpdateUserToDenied(user);
        return Success(saved);
      }
      return Success(user);
    }
  }
}
