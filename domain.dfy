/** The entities the user service works on: the account state enumeration, the user
    record, the failures it raises, the mails it sends and the collaborators it calls. */
module Domain {

  /** The five account states of `EUserState`. */
  datatype UserState = Pending | InReview | Active | Inactive | Denied

  /** The enum constant's name, which is what `toString()` gives for it. */
  function StateName(s: UserState): (name: string)
    ensures name != []
  {
    match s
    case Pending => "PENDING"
    case InReview => "IN_REVIEW"
    case Active => "ACTIVE"
    case Inactive => "INACTIVE"
    case Denied => "DENIED"
  }

  /** Distinct states have distinct names, so a label identifies its state. */
  lemma StateNameIdentifiesState(s: UserState, t: UserState)
    ensures StateName(s) == StateName(t) <==> s == t
  {
  }

  /** A stored user: its generated id, its login e-mail, its stored password (as the
      password encoder saved it) and its account state. Profile fields the service
      never reads are not part of this model. */
  datatype User = User(id: int, email: string, password: string, state: UserState)

  /** Why an operation fails. The first three are the service's `ErrorType` values;
      the last two are runtime exceptions raised by collaborators. */
  datatype Error =
    | InvalidEmailOrPassword   // ErrorType.INVALID_EMAIL_OR_PASSWORD
    | DeniedUser               // ErrorType.DENIED_USER
    | NotFoundUser             // ErrorType.NOTFOUND_USER
    | NoSuchElement            // Optional.get() on an empty lookup
    | DuplicateEmail           // the store refuses to save a second user with the same e-mail

  /** What a successful login answers: the name of a state that cannot log in yet,
      or a session token. Both are plain strings in the service. */
  datatype LoginReply = StateLabel(name: string) | Token(token: string)

  /** One mail handed to the mail service: address, template and payload. */
  datatype Mail = Mail(to: string, template: string, payload: string)

  /** The collaborators the service is constructed with, as total functions:
      `matches(raw, stored)` is the password encoder's check, `createToken(id)` the
      token issuer, `generateCode(id)` the verification-code service, and the two
      strings are the verification mail's template and link prefix. */
  datatype Collaborators = Collaborators(
    matches: (string, string) -> bool,
    createToken: int -> string,
    generateCode: int -> string,
    verificationTemplate: string,
    verificationLink: string)
}
