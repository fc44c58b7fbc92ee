/** The user repository as a map from generated id to stored user, with the lookups
    and the updates the user service performs on it. */
module Store {
  import opened Wrappers
  import opened Domain

  type Users = map<int, User>

  /** No two stored users share an e-mail address. */
  predicate UniqueEmails(users: Users)
  {
    forall i, j :: i in users && j in users && users[i].email == users[j].email ==> i == j
  }

  /** Every stored user sits under its own id, ids are generated from 1 upwards and are
      all below the next id to hand out, and e-mails are unique. */
  predicate StoreInvariant(users: Users, nextId: int)
  {
    1 <= nextId
    && (forall id :: id in users ==> users[id].id == id && 1 <= id < nextId)
    && UniqueEmails(users)
  }

  predicate EmailTaken(users: Users, email: string)
  {
    exists id :: id in users && users[id].email == email
  }

  /** `findById`: the user stored under `id`, if any. */
  function FindById(users: Users, id: int): (r: Option<User>)
    ensures r.Some? <==> id in users
    ensures r.Some? ==> r.value == users[id]
  {
    if id in users then Some(users[id]) else None
  }

  /** `findOptionalByEmail`: the one user registered with `email`, if any. */
  function FindByEmail(users: Users, email: string): (r: Option<User>)
    requires UniqueEmails(users)
    ensures r.None? <==> !EmailTaken(users, email)
    ensures r.Some? ==> r.value.email == email && exists id :: id in users && users[id] == r.value
  {
    if EmailTaken(users, email) then
      var id :| id in users && users[id].email == email;
      Some(users[id])
    else
      None
  }

  /** `findAllUserByUserState`: the stored users whose state is one of `states`. */
  function FindAllByState(users: Users, states: set<UserState>): (r: set<User>)
    ensures r <= users.Values
    ensures forall u :: u in r ==> u.state in states
    ensures forall id :: id in users && users[id].state in states ==> users[id] in r
  {
    set u | u in users.Values && u.state in states
  }

  /** Upsert of one user's state: the user stored under `id` gets state `s`, and an
      absent `id` leaves the store as it is. */
  function SetState(users: Users, id: int, s: UserState): (r: Users)
    ensures r.Keys == users.Keys
    ensures id in users ==> r[id] == users[id].(state := s)
    ensures id !in users ==> r == users
    ensures forall k :: k in users && k != id ==> r[k] == users[k]
  {
    if id in users then users[id := users[id].(state := s)] else users
  }

  /** The store after saving a newly registered user under the fresh id `id`. */
  function AddPending(users: Users, id: int, email: string, password: string): (r: Users)
    ensures r.Keys == users.Keys + {id}
    ensures r[id] == User(id, email, password, Pending)
    ensures forall k :: k in users && k != id ==> r[k] == users[k]
  {
    users[id := User(id, email, password, Pending)]
  }

  /** The lookup by e-mail finds the user stored with that e-mail. */
  lemma FindByEmailFinds(users: Users, email: string, id: int)
    requires UniqueEmails(users)
    requires id in users && users[id].email == email
    ensures FindByEmail(users, email) == Some(users[id])
  {
  }

  /** A lookup by id answers with the user whose own id is the one asked for. */
  lemma FindByIdAgreesWithId(users: Users, nextId: int, id: int)
    requires StoreInvariant(users, nextId)
    ensures FindById(users, id).Some? ==> FindById(users, id).value.id == id
  {
  }

  /** Setting the same state twice has the effect of setting it once. */
  lemma SetStateIdempotent(users: Users, id: int, s: UserState)
    ensures SetState(SetState(users, id, s), id, s) == SetState(users, id, s)
  {
  }

  /** Setting a state keeps the store invariant. */
  lemma SetStatePreservesInvariant(users: Users, nextId: int, id: int, s: UserState)
    requires StoreInvariant(users, nextId)
    ensures StoreInvariant(SetState(users, id, s), nextId)
  {
  }

  /** Registering with an unused e-mail adds exactly one user, in state `Pending`, under
      an id no stored user has; every stored user is kept and the invariant holds for
      the incremented counter. */
  lemma AddPendingAddsOneUser(users: Users, nextId: int, email: string, password: string)
    requires StoreInvariant(users, nextId)
    requires !EmailTaken(users, email)
    ensures nextId !in users
    ensures AddPending(users, nextId, email, password).Keys == users.Keys + {nextId}
    ensures |AddPending(users, nextId, email, password)| == |users| + 1
    ensures AddPending(users, nextId, email, password)[nextId].state == Pending
    ensures forall id :: id in users ==> AddPending(users, nextId, email, password)[id] == users[id]
    ensures StoreInvariant(AddPending(users, nextId, email, password), nextId + 1)
  {
  }
}
